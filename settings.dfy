/** Configuration constants of the game that the arena layout reads.
    Every `f32` constant is a `real` here; the values are those of the game. */
module Settings {

  // Initial wall positions (x coordinates, then y coordinates)
  const LEFT_WALL: real := -450.0
  const RIGHT_WALL: real := 450.0
  const BOTTOM_WALL: real := -300.0
  const TOP_WALL: real := 300.0

  // These gaps are exact
  const GAP_BETWEEN_PADDLE_AND_BRICKS: real := 270.0
  const GAP_BETWEEN_BRICKS: real := 5.0

  // These gaps are lower bounds, because the number of bricks is computed
  const GAP_BETWEEN_BRICKS_AND_CEILING: real := 20.0
  const GAP_BETWEEN_BRICKS_AND_SIDES: real := 10.0

  // Distance from the bottom wall to the paddle's centre line
  const GAP_BETWEEN_PADDLE_AND_FLOOR: real := 60.0

  // The paddle's width and height (its depth, 0, is not modelled)
  const PADDLE_WIDTH: real := 120.0
  const PADDLE_HEIGHT: real := 20.0

  // The layout aims at a grid of 10 columns by 10 rows
  const TARGET_GRID: real := 10.0

  // The largest `usize` on a 64-bit target
  const USIZE_MAX: int := 0xFFFF_FFFF_FFFF_FFFF
}
