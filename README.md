# Breakout arena layout — a Dafny model

This project models the arena and brick-grid layout of a Bevy "breakout"
game (`src/lib.rs`), with the configuration constants of `src/settings.rs`:

- the brick layout inside the `setup` startup system: the available width
  and height (both asserted positive), a uniform brick size derived from a
  10 x 10 target grid, the floored column and row counts, the unsigned gap
  count `n_columns - 1`, the horizontally centred block, and one brick per
  (row, column) spawned in row-major order, after the paddle;
- `update_wall_positions`, which rewrites the `WallPositions` resource
  symmetrically about the origin for every window-resize event;
- `update_brick_size_based_on_window_size`, a resize pass that gives every
  brick one recomputed size and keeps its position (the game never
  schedules it).

The game computes in `f32`; the model computes over `real`, so its
statements are about exact arithmetic. `floor() as usize` is modelled as
`Floor` followed by Rust's saturating cast. A panic of `setup` (a failed
`assert!` or the underflow of `n_columns - 1`) is an `Err` of the model.

Files:

- `settings.dfy` (module `Settings`): the constants the layout reads.
- `arena.dfy` (module `Arena`): the layout arithmetic as functions — the
  spans, the brick size, `FitCount`, `Layout` and the spawn order `Grid` —
  and the lemmas about them: fit, centring, side margins, vertical
  placement, gaps and non-overlap.
- `systems.dfy` (module `Systems`): the `WallPositions` resource as a class;
  `Setup` and its nested spawning loop `SpawnBricks`; the resize systems as
  methods that update the resource or an array of brick transforms in place.

In exact arithmetic one brick plus one gap is a tenth of the span, so the
fitted grid is always 10 x 10 (`Arena.FittedGridIsTarget`) and
`n_columns - 1` never underflows. The geometric lemmas do not rely on that:
they use only the floor bound `n * (brick + gap) <= span`, so they hold for
any count the floor could give. The asserts alone do not keep the bricks
non-degenerate: a brick has positive width only when the available width
exceeds ten gaps (`Arena.BrickSizePositive`).

## Model

| member | source | states |
|---|---|---|
| `Arena.FloorAsUsize` | src/lib.rs:175-176 | `floor() as usize`: the result is the largest whole number not above a non-negative value (below the `usize` limit), 0 for a negative value, never above the `usize` limit, and exactly the `usize` limit for a value at or beyond it |
| `Arena.FitCount` | src/lib.rs:174-176 | the fitted count of bricks plus gaps never exceeds the span, and one more would (below the `usize` limit) |
| `Arena.FitCountIsTarget` | src/lib.rs:169-177 | for any positive span the fitted count is exactly 10, so it is at least 1 and `n_columns - 1` cannot underflow |
| `Arena.Layout` | src/lib.rs:159-191 | fails with `WidthNotPositive` exactly when the available width is not positive, with `HeightNotPositive` exactly when the width is positive and the available height is not, and never with the column-gap underflow |
| `Arena.GridLength` | src/lib.rs:193-194 | exactly `n_rows * n_columns` bricks are spawned, none when either count is 0 |
| `Arena.GridAt` | src/lib.rs:193-198 | the brick at row `r`, column `c` is the `r * n_columns + c`-th spawned |
| `Arena.GridScale` | src/lib.rs:207-211 | every spawned brick has the plan's brick size |
| `Arena.FittedGridIsTarget` | src/lib.rs:169-176 | a successful layout always has 10 columns and 10 rows |
| `Arena.GridFitsSpan` | src/lib.rs:174-180 | columns times (brick width + gap) fits in the available width, and rows likewise in the available height, so the side and ceiling gaps are lower bounds |
| `Arena.BlockCentred` | src/lib.rs:181-190 | in every row the first brick's left edge and the last brick's right edge are equally far from the midpoint of the side walls |
| `Arena.WithinSideMargins` | src/lib.rs:181-196 | every brick's left edge is at least `left_wall + GAP_BETWEEN_BRICKS_AND_SIDES` and its right edge at most `right_wall - GAP_BETWEEN_BRICKS_AND_SIDES` |
| `Arena.VerticalPlacement` | src/lib.rs:161-197 | the bottom row's bottom edge is exactly `paddle_y + GAP_BETWEEN_PADDLE_AND_BRICKS`, no brick is below it, and no brick's top edge is above `top_wall - GAP_BETWEEN_BRICKS_AND_CEILING` |
| `Arena.AdjacentGaps` | src/lib.rs:195-198 | neighbours in a row and in a column are exactly `GAP_BETWEEN_BRICKS` apart |
| `Arena.NoOverlap` | src/lib.rs:193-198 | any two different bricks of a layout are at least one gap apart horizontally or vertically, so no two overlap |
| `Arena.BrickSizePositive` | src/lib.rs:165-172 | a brick's width is positive exactly when the available width exceeds ten gaps, and its height likewise; the asserts alone do not guarantee it |
| `Arena.InitialArenaLayout` | src/lib.rs:159-198 | for the initial walls (-450, 450, -300, 300) the layout is a 10 x 10 grid of 83 x 20 bricks whose left and right margins are both 12.5 |
| `Systems.WallPositions.constructor` | src/lib.rs:226-232 | the resource holds the four given wall edges |
| `Systems.Setup` | src/lib.rs:94-218 | succeeds exactly when both available spans are positive; on failure returns the layout's error; on success spawns the paddle at `(0, paddle_y)` and then exactly the plan's grid |
| `Systems.SpawnBricks` | src/lib.rs:193-218 | the nested row/column loop yields exactly the plan's grid in row-major order |
| `Systems.UpdateWallPositions` | src/lib.rs:234-243 | with no events the walls are unchanged; otherwise the last event wins and sets `left = -w/2, right = w/2, bottom = -h/2, top = h/2` |
| `Systems.ResizedArenaAccepted` | src/lib.rs:238-243 | if the layout were recomputed for the walls a resize to `w x h` leaves (the game does not: `setup` runs once, at startup), its asserts would hold exactly when `w > 20` and `h > 350` |
| `Systems.ResizedArenaCentred` | src/lib.rs:238-243 | if the layout were recomputed for the walls a resize leaves, the brick block would be centred on the origin |
| `Systems.UpdateBrickSizeBasedOnWindowSize` | src/lib.rs:254-273 | every brick gets the same recomputed size and keeps its position; the number of bricks does not change |
| `Systems.ResizedSizeVersusSetup` | src/lib.rs:258-268 | for the same walls the resize pass keeps the layout's brick width but adds `GAP_BETWEEN_PADDLE_AND_FLOOR / 10` to its height |
| `Systems.ResizeOverlapsInitialRows` | src/lib.rs:258-268 | on the initial arena the resize pass turns 20-high bricks on a 25-unit row pitch into 26-high bricks, so in every column each row overlaps the row above it |
| `Systems.UpdateBrickSizeLikeSetup` | src/lib.rs:254-273 | the resize pass with the layout's own height: every brick gets the layout's brick size and keeps its position |
| `Systems.ResizeLikeSetupKeepsGrid` | src/lib.rs:265-272 | resizing the bricks of a layout with the layout's size computation, for the same walls, leaves every brick unchanged |

## Findings

| source | as written | input that shows it | evidently intended | confidence | as-written member | corrected member |
|---|---|---|---|---|---|---|
| src/lib.rs:260-263 | the resize pass measures the available height as `top - bottom - ceiling gap - paddle-to-bricks gap`, leaving out `GAP_BETWEEN_PADDLE_AND_FLOOR`, which the layout subtracts through `paddle_y` (src/lib.rs:94, 161-163) | the initial walls (-450, 450, -300, 300): the layout makes bricks 20 high on a 25-unit row pitch; the pass rescales them to 26 high, so adjacent rows overlap by 1 | the same available height as the layout, so that resizing for unchanged walls changes no brick (`Systems.ResizeLikeSetupKeepsGrid`) | medium, not executed | `Systems.ResizeOverlapsInitialRows` | `Systems.UpdateBrickSizeLikeSetup` |

## Left out

- `f32` rounding: the model computes over `real`. In `f32` the fitted count may come out one below 10; the geometric lemmas use only the floor bound and hold for such a count as well, but `Arena.FittedGridIsTarget` and `Arena.InitialArenaLayout` are exact-arithmetic facts.
- The `usize` limit is that of a 64-bit target; on a 32-bit target the saturation point is lower. With a count of 10 this makes no difference.
- `n_columns - 1` wraps in a release build instead of panicking; the model treats it as the panic, and proves it never happens.
- The `z` components of translations and scales (0 and 1) and the paddle's depth are not modelled; transforms are two-dimensional.
- Camera, collision sound, ball (its normalised starting velocity needs a square root), scoreboard text and its update, sprites, meshes and colours: presentation and asset loading.
- The four wall entities: `WallBundle::new` lives in `src/implementations.rs`, which is not part of this model.
- The `println!` in `update_wall_positions`: output only.
- App construction and system scheduling in `run_game`; in particular the resize pass is never scheduled and `setup` runs once, on the initial walls.
- Bevy's deferred spawning is modelled as appending to a sequence, and the brick query as an array of transforms without entity ids; a resize event carries only its width and height.
- Ball movement, paddle control, collisions and the stepping UI (`src/movement.rs`, `src/stepping.rs`) are not part of this model; `src/structures.rs` holds marker components, plain records (`Velocity`, `CollisionSound`, `WallBundle`, `Scoreboard`) and the enums `WallLocation` and `Collision`, none with operations of its own.
