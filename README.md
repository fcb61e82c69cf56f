# SDL ball and tile demos, modelled in Dafny

This project models the per-frame state updates of four small SDL demo programs. Window,
event and drawing code is not modelled.

- **craftySDL** (`crafty.dfy`, module `Crafty`) is a tile-grid painting sandbox.
  - The screen is a 64 x 36 grid of 20-pixel tiles.
  - The grid is a three-dimensional integer array. Each tile holds its rectangle and a category.
  - The grid is filled at start-up: dirt at the bottom, one row of grass, air above.
  - One tile is marked.
  - A left click paints the tile under the cursor with grass; a right click paints it with air.
- **collisionEngine/base.cpp** (`bouncing_balls.dfy`, module `BouncingBalls`) has two balls.
  - Each ball moves by its velocity and reverses a component when it sticks out of the window.
  - Two touching balls swap their whole velocity vectors.
  - The balls are structs updated through references, modelled as a class.
- **Optimized_render_sdl** (`optimized_render.dfy`, module `OptimizedRender`) has a hundred balls in a vector.
  - Each frame moves the balls with the same bounce rule.
  - The balls are spawned from `rand()` results.
  - One texture holds a filled disc, painted into a flat pixel buffer.
- **collisionEngine/main.cpp** (`collision_engine.dfy`, module `CollisionEngine`, and
  `update_order.dfy`, module `UpdateOrder`) is a gravity simulation.
  - Each ball gets gravity and is integrated by semi-implicit Euler.
  - A strict floor / right wall / left wall / free flight chain resolves the ball's tentative position.
  - The ball is then checked against every later ball. Touching pairs are pushed apart by half the overlap each, and their velocity components along the line of centres are exchanged, then divided by each ball's mass.
  - A click kicks ball 0 towards the cursor.
  - `UpdateOrder` describes the order of one frame's steps, as a schedule of ball steps and pair checks.

`walls.dfy` (module `Walls`) holds the wall test that the two bouncing programs share, and the absolute value that collisionEngine/main.cpp calls and the contracts of all three use.

Floats are exact reals. In the gravity simulation, `sqrt`, `atan2`, `cos` and `sin` come from
a `Numerics` parameter:
- a square-root function;
- a function giving the cosine and sine of the angle of a vector.

The collision method is proved against the pure `Collided`, which applies the same functions.

## Model

| member | source | states |
|---|---|---|
| Walls.Escapes | collisionEngine/base.cpp:62-65 | the wall test of one axis, shared with Optimized_render_sdl/main.cpp:77-80: the centre minus the radius is below 0, or the centre plus the radius is beyond the window's extent |
| Walls.Abs | collisionEngine/main.cpp:124 | `std::abs` of a float is non-negative and is the value or its negation |
| Crafty.InitTiles | craftySDL/main.cpp:46-63 | the fresh grid is well formed: every tile has the rectangle (20i, 20j, 20, 20) and a category that indexes `BlockColors`. The four bottom rows are dirt (2), the row above is grass (1) and every higher row is air (0) |
| Crafty.PaintMarker | craftySDL/main.cpp:77 | tile (8, 8) gets category 3, the grid stays well formed, and every other cell and field is unchanged |
| Crafty.CellOf | craftySDL/main.cpp:91-92 | for an in-window mouse position, the cell from integer division is inside the grid and its rectangle holds the pixel |
| Crafty.CellOfIsContainingTile | craftySDL/main.cpp:91-92 | a tile's rectangle holds the pixel if and only if it is the tile `CellOf` names |
| Crafty.Painted | craftySDL/main.cpp:94-103 | left button gives grass (1), right button gives air (0), any other button keeps the category |
| Crafty.PaintedIdempotent | craftySDL/main.cpp:96-102 | a second identical click leaves the category a first one left |
| Crafty.Click | craftySDL/main.cpp:87-104 | the clicked tile's category becomes `Painted(button, old category)` and its rectangle holds the pixel. Every other category and every rectangle is unchanged, and the grid stays well formed, so every stored category indexes `BlockColors` |
| BouncingBalls.Ball.constructor | collisionEngine/base.cpp:10-14 | a ball holds the given position, velocity and radius |
| BouncingBalls.UpdateBall | collisionEngine/base.cpp:57-68 | the position moves by exactly the old velocity. dx is negated if and only if the moved ball escapes horizontally, and dy likewise vertically. The radius, abs(dx) and abs(dy) are unchanged |
| BouncingBalls.SquaredDistance | collisionEngine/base.cpp:72-74 | the squared distance dx * dx + dy * dy between the two centres, the operand of the source's `sqrt` |
| BouncingBalls.CheckCollision | collisionEngine/base.cpp:71-76 | the overlap test without the square root: the sum of radii is non-negative and the squared centre distance is at most its square. `CheckCollisionIsDistanceTest` proves it agrees with `sqrt(dx * dx + dy * dy) <= r1 + r2` |
| BouncingBalls.CheckCollisionIsDistanceTest | collisionEngine/base.cpp:71-76 | for the true centre distance, the squared-distance test agrees with `distance <= r1 + r2` in both directions |
| BouncingBalls.CheckCollisionSymmetric | collisionEngine/base.cpp:71-76 | the overlap test does not depend on argument order |
| BouncingBalls.HandleCollisions | collisionEngine/base.cpp:79-89 | touching balls exchange their whole (dx, dy) vectors; otherwise nothing changes. Positions and radii are never touched, so the collision status is kept |
| BouncingBalls.HandleCollisionsTwice | collisionEngine/base.cpp:79-89 | handling the same pair twice restores both velocities |
| BouncingBalls.InitialBalls | collisionEngine/base.cpp:99-100 | the two starting balls have the program's literal values and do not yet collide |
| BouncingBalls.ExchangeOfInitialVelocities | collisionEngine/base.cpp:82-87 | touching balls with velocities (4, 3) and (-3, -4) come out with (-3, -4) and (4, 3) |
| OptimizedRender.Advanced | Optimized_render_sdl/main.cpp:74-82 | one ball's step moves it by exactly (vx, vy), keeps radius and colour, and keeps abs(vx) and abs(vy) |
| OptimizedRender.AdvancedBounces | Optimized_render_sdl/main.cpp:77-82 | vx is negated if and only if the moved ball escapes horizontally, and vy likewise vertically |
| OptimizedRender.Solve | Optimized_render_sdl/main.cpp:72-84 | needs at least `NUM_BALLS` balls. Each of the first `NUM_BALLS` becomes `Advanced` of its old value, and later balls are unchanged |
| OptimizedRender.Spawned | Optimized_render_sdl/main.cpp:102-107 | for any non-negative `rand()` results, x is in [20, 779], y is in [20, 579], vx and vy are integers in [-2, 2], the radius is 10 and the colour is the given one |
| OptimizedRender.SpawnBalls | Optimized_render_sdl/main.cpp:99-108 | the start-up loop builds `NUM_BALLS` balls, ball i from its own four `rand()` results and colour |
| OptimizedRender.InDisc | Optimized_render_sdl/main.cpp:46-49 | texel (x, y) belongs to the disc when dx * dx + dy * dy <= radius * radius, with dx = x - radius and dy = y - radius |
| OptimizedRender.TextureSize | Optimized_render_sdl/main.cpp:41 | the buffer holds diameter * diameter * 4 elements |
| OptimizedRender.TexelIndex | Optimized_render_sdl/main.cpp:50 | the index y * diameter + x is below diameter * diameter, which is at most the allocated size. It gives back row y and column x |
| OptimizedRender.PaintDisc | Optimized_render_sdl/main.cpp:44-54 | a texel gets the colour exactly when dx * dx + dy * dy <= radius * radius. Every other element keeps its value |
| OptimizedRender.CreateTexturePixels | Optimized_render_sdl/main.cpp:40-54 | as written: the disc has the colour, and every other texel keeps the indeterminate contents of the fresh allocation |
| OptimizedRender.CornerTexelIsNeverWritten | Optimized_render_sdl/main.cpp:42-50 | texel (0, 0) of the radius-15 texture is element 0 of the buffer and lies outside the disc, so it is never written |
| OptimizedRender.CreateClearedTexturePixels | Optimized_render_sdl/main.cpp:40-54 | corrected: the disc has the colour and every other element is 0 |
| CollisionEngine.WithGravity | collisionEngine/main.cpp:178-180 | ay becomes the gravity constant whatever it was, and nothing else changes |
| CollisionEngine.ApplyGravity | collisionEngine/main.cpp:178-180 | only ball i changes, to `WithGravity` of its old value |
| CollisionEngine.BoundaryOf | collisionEngine/main.cpp:115-147 | which branch of the chain runs: floor when the tentative bottom reaches the floor; otherwise right wall when the tentative right edge reaches the window's width; otherwise left wall when the tentative left edge is at or below 0; otherwise free flight |
| CollisionEngine.Resolved | collisionEngine/main.cpp:113-165 | the boundary chain writes no mass, radius, elasticity or colour |
| CollisionEngine.CheckNextFrameCollision | collisionEngine/main.cpp:113-165 | only ball i changes, to `Resolved` of its old value at the given tentative position |
| CollisionEngine.FloorHasPriority | collisionEngine/main.cpp:115-131 | when the tentative bottom reaches the floor, only the floor branch runs, even past a side wall. It lifts the old y by the penetration, sets vy to -vy * e / mass, sets vx to 0 below 0.01 or damps it by 0.9, commits the tentative x and keeps both accelerations |
| CollisionEngine.WallBranches | collisionEngine/main.cpp:134-157 | a side-wall branch shifts the old x by the penetration, sets vx to -vx * e / mass, clears ax, commits the tentative y, and keeps vy and ay |
| CollisionEngine.FreeFlightCommits | collisionEngine/main.cpp:158-162 | free flight commits the tentative position and changes nothing else |
| CollisionEngine.Accelerated | collisionEngine/main.cpp:168-169 | vx and vy each grow by the acceleration times dt, and nothing else changes |
| CollisionEngine.Integrated | collisionEngine/main.cpp:167-176 | integration writes no mass, radius, elasticity or colour |
| CollisionEngine.UpdatePosition | collisionEngine/main.cpp:167-176 | only ball i changes, to `Integrated` of its old value |
| CollisionEngine.Advanced | collisionEngine/main.cpp:188-189 | a ball's own part of its turn, gravity then integration, writes no mass, radius, elasticity or colour |
| CollisionEngine.SemiImplicitTentative | collisionEngine/main.cpp:167-172 | away from the walls, the committed position uses the velocity after the acceleration: x + (vx + ax dt) dt and y + (vy + ay dt) dt |
| CollisionEngine.FreeFlightStep | collisionEngine/main.cpp:167-176 | an unaccelerated ball away from every wall moves by exactly its velocity times dt, and nothing else changes |
| CollisionEngine.StaysAboveFloor | collisionEngine/main.cpp:115-131 | a ball whose bottom is at or above the floor stays so after integration, whichever branch runs |
| CollisionEngine.FloorBounceCanLeaveRightWall | collisionEngine/main.cpp:115-144 | because the floor branch has priority, a ball touching the floor and the right wall while moving right ends past the right wall |
| CollisionEngine.Touching | collisionEngine/main.cpp:84 | the overlap test of both functions (also line 67): the distance is at most r1 + r2 |
| CollisionEngine.HalfOverlap | collisionEngine/main.cpp:71-72 | one axis's offset: the cosine or sine of the angle times the overlap times 0.5 |
| CollisionEngine.OverlapResolved | collisionEngine/main.cpp:66-80 | touching balls move by equal and opposite offsets, so x1 + x2 and y1 + y2 are kept and only positions change. Non-touching balls are unchanged |
| CollisionEngine.OverlapRestoresContact | collisionEngine/main.cpp:66-80 | given the true distance and a unit direction, the resolved centres are exactly r1 + r2 apart, along the same direction |
| CollisionEngine.ResolveBallOverlap | collisionEngine/main.cpp:66-80 | returns true if and only if distance <= r1 + r2. Only balls i and j change, to `OverlapResolved` of their old values |
| CollisionEngine.Exchanged | collisionEngine/main.cpp:88-105 | the velocity exchange changes only the two velocities |
| CollisionEngine.ExchangeScalesMomentum | collisionEngine/main.cpp:97-105 | for equal masses m and a unit direction, the total momentum after the exchange is the total before divided by m. So it is kept for every pair when m = 1; for any other m it is kept only when the total momentum is zero |
| CollisionEngine.ExchangeSwapsNormalComponents | collisionEngine/main.cpp:91-105 | for positive masses and a unit direction, each ball comes out with the other ball's normal component and its own tangential component, each divided by its own mass |
| CollisionEngine.Distance | collisionEngine/main.cpp:83 | the distance `sqrt(pow(dx, 2) + pow(dy, 2))`, with the square root from `Numerics` |
| CollisionEngine.DirectionOf | collisionEngine/main.cpp:88 | cosine and sine of `atan2(y2 - y1, x2 - x1)` (also line 70), from `Numerics` |
| CollisionEngine.Collided | collisionEngine/main.cpp:82-111 | a pair check keeps x1 + x2, y1 + y2, both accelerations, masses, radii, elasticities and colours. A non-touching pair is unchanged |
| CollisionEngine.ExchangeVelocities | collisionEngine/main.cpp:88-105 | only balls i and j change, to `Exchanged` of their values along the direction between their centres |
| CollisionEngine.CheckBallCollision | collisionEngine/main.cpp:82-111 | returns whether the balls touch. Only balls i and j change, to `Collided` of their old values |
| CollisionEngine.Met | collisionEngine/main.cpp:193-194 | one pair check rewrites only balls i and j, to `Collided` of their values; lengths and positive masses are kept |
| CollisionEngine.Sweep | collisionEngine/main.cpp:192-195 | ball i checked in order against balls i+1 .. j-1, each check seeing the values the earlier ones left |
| CollisionEngine.Turn | collisionEngine/main.cpp:185-195 | ball i's turn: `Advanced` on ball i, then the sweep over every later ball |
| CollisionEngine.Turns | collisionEngine/main.cpp:184-196 | the first m turns of a frame, in index order |
| CollisionEngine.Frame | collisionEngine/main.cpp:182-197 | one call of `update`: all n turns |
| CollisionEngine.SweepKeeps | collisionEngine/main.cpp:192-195 | ball i's pair checks leave every ball before i unchanged, and no ball's mass, radius, elasticity or colour changes |
| CollisionEngine.TurnsKeepBodies | collisionEngine/main.cpp:184-196 | the first m turns of a frame change no ball's mass, radius, elasticity or colour |
| CollisionEngine.FrameKeepsBodies | collisionEngine/main.cpp:182-197 | a whole `update` changes no ball's mass, radius, elasticity or colour |
| CollisionEngine.LastTurnOnlyAdvances | collisionEngine/main.cpp:184-196 | the last ball's turn is only its own gravity and integration |
| CollisionEngine.CollideWithLater | collisionEngine/main.cpp:192-195 | the inner loop leaves the balls as `Sweep` of the old values and checks the pairs (i, i+1), ..., (i, n-1) in order |
| CollisionEngine.TakeTurn | collisionEngine/main.cpp:185-195 | one outer iteration takes the balls from the first i turns of a frame to the first i + 1 turns |
| CollisionEngine.Update | collisionEngine/main.cpp:182-197 | the balls become `Frame` of the old values, and the steps taken are `Schedule(n, n)` |
| CollisionEngine.Kicked | collisionEngine/main.cpp:230-231 | the velocity grows by (mouseX - x) * 2 and (mouseY - y) * 8, and nothing else changes |
| CollisionEngine.KickExample | collisionEngine/main.cpp:230-231 | a ball at rest at (100, 100) clicked at (200, 100) gets velocity (200, 0) |
| CollisionEngine.ClickImpulse | collisionEngine/main.cpp:226-232 | a click kicks ball 0 and only ball 0 |
| CollisionEngine.RedBall | collisionEngine/main.cpp:210 | the controlled ball: at (100, 100), at rest, elasticity 0.4, mass 1, radius 20, colour (255, 0, 0) |
| CollisionEngine.WhiteBall | collisionEngine/main.cpp:213 | each pushed ball: at (600, 100), at rest, elasticity 0.4, mass 1, radius 20, colour (255, 255, 255) |
| CollisionEngine.InitialScene | collisionEngine/main.cpp:209-214 | the start-up vector has 14 balls: the red ball, then thirteen white ones, all of positive mass |
| UpdateOrder.Pairs | collisionEngine/main.cpp:192-195 | the inner loop's pair checks of ball i, in order: (i, i+1), ..., (i, end-1) |
| UpdateOrder.Schedule | collisionEngine/main.cpp:184-196 | the order of `update`'s steps for the first m of n balls: for each ball in index order, its own step, then its pair checks with every later ball |
| UpdateOrder.PairsValid | collisionEngine/main.cpp:192-195 | ball i's inner loop checks only pairs (i, j) with i < j < n |
| UpdateOrder.ScheduleValid | collisionEngine/main.cpp:182-197 | every step of the first m turns names valid balls, the lower one below m |
| UpdateOrder.PairsCount | collisionEngine/main.cpp:192-195 | ball i's inner loop checks each pair (i, j) with i < j < n once and no other pair |
| UpdateOrder.AdvanceCount | collisionEngine/main.cpp:184-189 | the first m turns advance each ball below m once and no other ball |
| UpdateOrder.MeetCount | collisionEngine/main.cpp:184-196 | the first m turns check each pair (i, j) with i < m once and no other pair |
| UpdateOrder.UpdateVisitsEachOnce | collisionEngine/main.cpp:182-197 | a frame advances every ball exactly once and checks every unordered pair exactly once, lower index first, and does nothing else |

## Left out

- Scope and foreign code:
  - SDL is not modelled: windows, renderers, textures, surfaces, `SDL_MapRGBA`, event polling, drawing (`renderALL`, `renderTile`, `renderBall`, `drawBall`), `SDL_Delay` and `std::chrono`. These are foreign graphics, I/O and timing calls.
  - The event loops are reduced to what one event does: `Click`, `ClickImpulse`, and one call of `Solve` or `Update`.
  - The debug `printf` output of craftySDL is left out; it changes no state.
  - `randomColor` and `rand()` are parameters of `SpawnBalls`. The model takes any non-negative results and any colours.
- Numbers:
  - Floats are exact reals, with no IEEE rounding.
  - The model's `M_TO_PIXELS` is exactly 3600.
  - The float-to-int conversions of drawing are not modelled.
  - `sqrt`, `atan2`, `cos` and `sin` are the `Numerics` parameter.
  - Their mathematical properties, such as cos² + sin² = 1 and the distance being the true distance, are stated as hypotheses of the lemmas that need them.
- Globals:
  - CollisionEngine.CheckNextFrameCollision: commits the tentative position it is given. The program commits the globals `nextPosX` and `nextPosY`, which its only caller, `updatePosition`, has just set to the same values.
- Masses:
  - CollisionEngine.Update: requires every mass to be positive. The program divides by the mass unguarded, and every ball it creates has mass 1. The same requirement is on every step that divides by the mass.
- Model structure:
  - CollisionEngine.Update: the loop bodies of `update` are split into the methods `TakeTurn` and `CollideWithLater`.
  - CollisionEngine.CheckBallCollision: the velocity block after the overlap is resolved is the separate method `ExchangeVelocities`.
  - The step logs (`visits`, `checks`) are ghost.
  - `Sweep`, `Turn`, `Turns` and `Frame` define the frame's result by the program's own loop structure. The lemmas beside them state what it keeps.
  - OptimizedRender.Solve: the program's vector of structs is an array of `Ball` values. Each field write is a whole-value update of one element.
- Inputs:
  - Crafty.Click: requires an in-window mouse position, which `SDL_GetMouseState` gives for a click in the window. Positions outside the window are not modelled.

## Findings

| source | as written | input that shows it | evidently intended | confidence | as-written member | corrected member |
|---|---|---|---|---|---|---|
| Optimized_render_sdl/main.cpp:42 | the pixel buffer comes from `new Uint32[textureSize]`, so its elements are indeterminate. Only texels inside the disc are written before the buffer becomes a surface | `createTexture(renderer, 15, white)`: texel (0, 0) is at distance² 450 > 225 from the centre, so element 0 is never written | a cleared buffer (`new Uint32[textureSize]()`) so that texels outside the disc are transparent 0 | not executed | OptimizedRender.CornerTexelIsNeverWritten | OptimizedRender.CreateClearedTexturePixels |
