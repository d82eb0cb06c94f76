/** The game's systems that touch the arena: `setup` (paddle and brick
    spawning), `update_wall_positions` (window resize) and the resize pass
    `update_brick_size_based_on_window_size`, which the game never schedules. */
module Systems {
  import opened Settings
  import opened Arena

  /** The shared resource holding the four wall edges. */
  class WallPositions {
    var leftWall: real
    var rightWall: real
    var bottomWall: real
    var topWall: real

    constructor (leftWall: real, rightWall: real, bottomWall: real, topWall: real)
      ensures this.leftWall == leftWall && this.rightWall == rightWall
      ensures this.bottomWall == bottomWall && this.topWall == topWall
    {
      this.leftWall := leftWall;
      this.rightWall := rightWall;
      this.bottomWall := bottomWall;
      this.topWall := topWall;
    }
  }

  /** A window-resize event: the new size of the window. */
  datatype WindowResized = WindowResized(width: real, height: real)

  /** What `setup` spawns that the layout decides: the paddle and the bricks
      in spawn order. */
  datatype Spawned = Spawned(paddle: Transform, bricks: seq<Transform>)

  /** The paddle sits at `x = 0` on its centre line above the bottom wall. */
  function PaddleTransform(bottomWall: real): Transform {
    Transform(Vec2(0.0, PaddleY(bottomWall)), Vec2(PADDLE_WIDTH, PADDLE_HEIGHT))
  }

  /** The layout part of `setup`: it fails where the game panics, and
      otherwise spawns the paddle and then every brick of the plan, row by
      row and column by column. */
  method Setup(walls: WallPositions) returns (r: Result<Spawned>)
    ensures r.Ok? <==> TotalWidthOfBricks(walls.leftWall, walls.rightWall) > 0.0 &&
                       TotalHeightOfBricks(walls.bottomWall, walls.topWall) > 0.0
    ensures r.Err? ==> Layout(walls.leftWall, walls.rightWall, walls.bottomWall, walls.topWall) == Err(r.error)
    ensures r.Ok? ==>
              var p := Layout(walls.leftWall, walls.rightWall, walls.bottomWall, walls.topWall).value;
              r.value == Spawned(PaddleTransform(walls.bottomWall), Grid(p))
  {
    var paddle := PaddleTransform(walls.bottomWall);
    var plan := Layout(walls.leftWall, walls.rightWall, walls.bottomWall, walls.topWall);
    if plan.Err? {
      return Err(plan.error);
    }
    var bricks := SpawnBricks(plan.value);
    return Ok(Spawned(paddle, bricks));
  }

  /** The nested loop of `setup` that spawns one brick per row and column:
      it yields exactly the plan's grid, in row-major order. */
  method SpawnBricks(p: Plan) returns (bricks: seq<Transform>)
    ensures bricks == Grid(p)
  {
    bricks := [];
    for row := 0 to p.nRows
      invariant bricks == Rows(p, row)
    {
      for column := 0 to p.nColumns
        invariant bricks == Rows(p, row) + Row(p, row, column)
      {
        bricks := bricks + [BrickAt(p, row, column)];
        assert Row(p, row, column + 1) == Row(p, row, column) + [BrickAt(p, row, column)];
      }
    }
  }

  /** Every resize event in turn rewrites the four walls symmetrically about
      the origin; so the last event wins, and without events nothing changes. */
  method UpdateWallPositions(events: seq<WindowResized>, walls: WallPositions)
    modifies walls
    ensures |events| == 0 ==> unchanged(walls)
    ensures |events| > 0 ==>
              var e := events[|events| - 1];
              walls.leftWall == -e.width / 2.0 && walls.rightWall == e.width / 2.0 &&
              walls.bottomWall == -e.height / 2.0 && walls.topWall == e.height / 2.0
  {
    for i := 0 to |events|
      invariant i == 0 ==> unchanged(walls)
      invariant i > 0 ==>
                  walls.leftWall == -events[i - 1].width / 2.0 && walls.rightWall == events[i - 1].width / 2.0 &&
                  walls.bottomWall == -events[i - 1].height / 2.0 && walls.topWall == events[i - 1].height / 2.0
    {
      var e := events[i];
      walls.leftWall := -e.width / 2.0;
      walls.rightWall := e.width / 2.0;
      walls.bottomWall := -e.height / 2.0;
      walls.topWall := e.height / 2.0;
    }
  }

  /** If the layout were recomputed for the walls a resize to `width x height`
      leaves (the game does not do so: `setup` runs once), its asserts would
      hold exactly when
      the window is wider than the two side gaps and higher than the paddle
      offset, the paddle-to-brick gap and the ceiling gap together. */
  lemma ResizedArenaAccepted(width: real, height: real)
    ensures Layout(-width / 2.0, width / 2.0, -height / 2.0, height / 2.0).Ok? <==>
              width > 2.0 * GAP_BETWEEN_BRICKS_AND_SIDES &&
              height > GAP_BETWEEN_PADDLE_AND_FLOOR + GAP_BETWEEN_PADDLE_AND_BRICKS + GAP_BETWEEN_BRICKS_AND_CEILING
  {
  }

  /** If the layout were recomputed for the walls a resize leaves, the brick
      block would be centred on the origin. */
  lemma ResizedArenaCentred(width: real, height: real, p: Plan, row: nat)
    requires Layout(-width / 2.0, width / 2.0, -height / 2.0, height / 2.0) == Ok(p)
    ensures p.nColumns >= 1
    ensures BrickAt(p, row, 0).Left() == -BrickAt(p, row, p.nColumns - 1).Right()
  {
    BlockCentred(-width / 2.0, width / 2.0, -height / 2.0, height / 2.0, p, row);
  }

  /** The brick size that the resize pass computes. Unlike `setup`, it
      leaves `GAP_BETWEEN_PADDLE_AND_FLOOR` out of the available height. */
  function ResizedBrickSize(leftWall: real, rightWall: real, bottomWall: real, topWall: real): Vec2 {
    var totalWidth := TotalWidthOfBricks(leftWall, rightWall);
    var totalHeight := topWall - bottomWall - GAP_BETWEEN_BRICKS_AND_CEILING - GAP_BETWEEN_PADDLE_AND_BRICKS;
    BrickSize(totalWidth, totalHeight)
  }

  /** The resize pass as written: every brick gets the recomputed size and
      keeps its position. */
  method UpdateBrickSizeBasedOnWindowSize(bricks: array<Transform>, walls: WallPositions)
    modifies bricks
    ensures forall i :: 0 <= i < bricks.Length ==>
              bricks[i] == Transform(old(bricks[i]).translation,
                                     ResizedBrickSize(walls.leftWall, walls.rightWall, walls.bottomWall, walls.topWall))
  {
    var brickSize := ResizedBrickSize(walls.leftWall, walls.rightWall, walls.bottomWall, walls.topWall);
    for i := 0 to bricks.Length
      invariant forall k :: 0 <= k < i ==> bricks[k] == Transform(old(bricks[k]).translation, brickSize)
      invariant forall k :: i <= k < bricks.Length ==> bricks[k] == old(bricks[k])
    {
      bricks[i] := bricks[i].(scale := brickSize);
    }
  }

  /** For the same walls, the resize pass keeps `setup`'s brick width but
      makes every brick taller by a tenth of `GAP_BETWEEN_PADDLE_AND_FLOOR`. */
  lemma ResizedSizeVersusSetup(leftWall: real, rightWall: real, bottomWall: real, topWall: real)
    ensures var setupSize := BrickSize(TotalWidthOfBricks(leftWall, rightWall), TotalHeightOfBricks(bottomWall, topWall));
            ResizedBrickSize(leftWall, rightWall, bottomWall, topWall) ==
              Vec2(setupSize.x, setupSize.y + GAP_BETWEEN_PADDLE_AND_FLOOR / TARGET_GRID)
  {
  }

  /** On the initial arena the resize pass, run without any resize, makes
      the 20-unit-high bricks 26 units high while rows stay 25 units apart,
      so every two vertically adjacent bricks overlap. */
  lemma ResizeOverlapsInitialRows(row: nat, column: nat)
    requires row + 1 < 10
    ensures var p := Plan(Vec2(83.0, 20.0), 10, 10, Vec2(-396.0, 40.0));
            var size := ResizedBrickSize(LEFT_WALL, RIGHT_WALL, BOTTOM_WALL, TOP_WALL);
            Layout(LEFT_WALL, RIGHT_WALL, BOTTOM_WALL, TOP_WALL) == Ok(p) &&
            size == Vec2(83.0, 26.0) &&
            Transform(BrickAt(p, row, column).translation, size).Top() >
              Transform(BrickAt(p, row + 1, column).translation, size).Bottom()
  {
    InitialArenaLayout();
  }

  /** The resize pass with `setup`'s own size computation. */
  method UpdateBrickSizeLikeSetup(bricks: array<Transform>, walls: WallPositions)
    modifies bricks
    ensures forall i :: 0 <= i < bricks.Length ==>
              bricks[i] == Transform(old(bricks[i]).translation,
                                     BrickSize(TotalWidthOfBricks(walls.leftWall, walls.rightWall),
                                               TotalHeightOfBricks(walls.bottomWall, walls.topWall)))
  {
    var brickSize := BrickSize(TotalWidthOfBricks(walls.leftWall, walls.rightWall),
                               TotalHeightOfBricks(walls.bottomWall, walls.topWall));
    for i := 0 to bricks.Length
      invariant forall k :: 0 <= k < i ==> bricks[k] == Transform(old(bricks[k]).translation, brickSize)
      invariant forall k :: i <= k < bricks.Length ==> bricks[k] == old(bricks[k])
    {
      bricks[i] := bricks[i].(scale := brickSize);
    }
  }

  /** With `setup`'s size computation, resizing the bricks `setup` spawned,
      for the walls it laid them out for, leaves every brick as it was, so
      the grid keeps its gaps and stays free of overlaps. */
  lemma {:induction false} ResizeLikeSetupKeepsGrid(leftWall: real, rightWall: real, bottomWall: real, topWall: real,
                                                    p: Plan, k: nat)
    requires Layout(leftWall, rightWall, bottomWall, topWall) == Ok(p)
    requires k < |Grid(p)|
    ensures Transform(Grid(p)[k].translation,
                      BrickSize(TotalWidthOfBricks(leftWall, rightWall), TotalHeightOfBricks(bottomWall, topWall)))
            == Grid(p)[k]
  {
    GridScale(p, p.nRows, k);
  }
}
