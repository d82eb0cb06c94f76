/** The arena and brick-grid arithmetic of the game's `setup` system.

    The game computes in `f32`; this model computes over `real`, so every
    statement below is about exact arithmetic. */
module Arena {
  import opened Settings

  datatype Vec2 = Vec2(x: real, y: real)

  /** A sprite's placement: `translation` is its centre, `scale` its width and height. */
  datatype Transform = Transform(translation: Vec2, scale: Vec2)
  {
    function Left(): real { translation.x - scale.x / 2.0 }
    function Right(): real { translation.x + scale.x / 2.0 }
    function Bottom(): real { translation.y - scale.y / 2.0 }
    function Top(): real { translation.y + scale.y / 2.0 }
  }

  /** The ways `setup` can panic while laying out the bricks. */
  datatype LayoutError =
    | WidthNotPositive      // `assert!(total_width_of_bricks > 0.0)` fails
    | HeightNotPositive     // `assert!(total_height_of_bricks > 0.0)` fails
    | ColumnGapUnderflow    // `n_columns - 1` underflows the unsigned column count

  datatype Result<T> = Ok(value: T) | Err(error: LayoutError)

  /** The brick grid that `setup` derives from the wall positions: one brick
      size for all bricks, the fitted column and row counts, and the centre
      of the bottom-left brick. */
  datatype Plan = Plan(brickSize: Vec2, nColumns: nat, nRows: nat, offset: Vec2)

  function PaddleY(bottomWall: real): real {
    bottomWall + GAP_BETWEEN_PADDLE_AND_FLOOR
  }

  function TotalWidthOfBricks(leftWall: real, rightWall: real): real {
    (rightWall - leftWall) - 2.0 * GAP_BETWEEN_BRICKS_AND_SIDES
  }

  function BottomEdgeOfBricks(bottomWall: real): real {
    PaddleY(bottomWall) + GAP_BETWEEN_PADDLE_AND_BRICKS
  }

  function TotalHeightOfBricks(bottomWall: real, topWall: real): real {
    topWall - BottomEdgeOfBricks(bottomWall) - GAP_BETWEEN_BRICKS_AND_CEILING
  }

  /** The brick size that would fill a span with the 10 x 10 target grid. */
  function BrickSize(totalWidth: real, totalHeight: real): Vec2 {
    Vec2(totalWidth / TARGET_GRID - GAP_BETWEEN_BRICKS,
         totalHeight / TARGET_GRID - GAP_BETWEEN_BRICKS)
  }

  /** The distance from one brick's centre to the next: a brick and the gap after it. */
  function Pitch(size: real): real {
    size + GAP_BETWEEN_BRICKS
  }

  /** `v.floor() as usize`: the cast saturates, so a negative value gives 0
      and a value beyond the largest `usize` gives that largest value. */
  function FloorAsUsize(v: real): (n: nat)
    ensures 0.0 <= v ==> n as real <= v
    ensures 0.0 <= v < USIZE_MAX as real ==> v < n as real + 1.0
    ensures v < 0.0 ==> n == 0
    ensures n <= USIZE_MAX
    ensures USIZE_MAX as real <= v ==> n == USIZE_MAX
  {
    if v < 0.0 then 0 else if v.Floor > USIZE_MAX then USIZE_MAX else v.Floor
  }

  /** How many bricks of one size, each followed by one inter-brick gap,
      fit into a span: the largest count that does not overflow it. */
  function FitCount(span: real, size: real): (n: nat)
    requires Pitch(size) > 0.0
    ensures 0.0 <= span ==> n as real * Pitch(size) <= span
    ensures 0.0 <= span / Pitch(size) < USIZE_MAX as real ==>
              span < (n as real + 1.0) * Pitch(size)
  {
    var n := FloorAsUsize(span / Pitch(size));
    FloorTimesPitch(span, Pitch(size), n);
    n
  }

  lemma FloorTimesPitch(span: real, pitch: real, n: nat)
    requires 0.0 < pitch && n == FloorAsUsize(span / pitch)
    ensures 0.0 <= span ==> n as real * pitch <= span
    ensures 0.0 <= span / pitch < USIZE_MAX as real ==> span < (n as real + 1.0) * pitch
  {
    DivTimes(span, pitch);
    if 0.0 <= span {
      MulRightMonotone(n as real, span / pitch, pitch);
    }
    FloorTimesPitchUpper(span, pitch, n);
  }

  lemma FloorTimesPitchUpper(span: real, pitch: real, n: nat)
    requires 0.0 < pitch && n == FloorAsUsize(span / pitch)
    ensures 0.0 <= span / pitch < USIZE_MAX as real ==> span < (n as real + 1.0) * pitch
  {
    var q := span / pitch;
    DivTimes(span, pitch);
    if 0.0 <= q < USIZE_MAX as real {
      var m := n as real + 1.0;
      MulRightStrict(q, m, pitch);
    }
  }

  lemma DivTimes(a: real, b: real)
    requires 0.0 < b
    ensures (a / b) * b == a
    ensures 0.0 <= a ==> 0.0 <= a / b
  {
  }

  lemma MulRightMonotone(a: real, b: real, c: real)
    requires a <= b && 0.0 <= c
    ensures a * c <= b * c
  {
    assert b * c - a * c == (b - a) * c;
  }

  lemma MulRightStrict(a: real, b: real, c: real)
    requires a < b && 0.0 < c
    ensures a * c < b * c
  {
    assert b * c - a * c == (b - a) * c;
  }

  /** In exact arithmetic the brick size plus one gap is a tenth of the span,
      so the fitted count is exactly the target of 10 whenever the span is
      positive; in particular it is at least 1, so `n_columns - 1` cannot
      underflow. */
  lemma {:induction false} FitCountIsTarget(span: real)
    requires 0.0 < span
    ensures FitCount(span, span / TARGET_GRID - GAP_BETWEEN_BRICKS) == 10
  {
    var pitch := span / TARGET_GRID - GAP_BETWEEN_BRICKS + GAP_BETWEEN_BRICKS;
    assert pitch == span / 10.0;
    assert span == 10.0 * pitch;
    assert span / pitch == 10.0;
    assert (10.0).Floor == 10;
  }

  /** The layout part of `setup`: the two asserted spans, the brick size,
      the fitted counts, the unsigned gap count and the centred offsets.
      It fails exactly when one of the asserts fails; the gap count never
      underflows. */
  function Layout(leftWall: real, rightWall: real, bottomWall: real, topWall: real): (r: Result<Plan>)
    ensures r == Err(WidthNotPositive) <==> TotalWidthOfBricks(leftWall, rightWall) <= 0.0
    ensures r == Err(HeightNotPositive) <==>
              TotalWidthOfBricks(leftWall, rightWall) > 0.0 && TotalHeightOfBricks(bottomWall, topWall) <= 0.0
    ensures r != Err(ColumnGapUnderflow)
  {
    var totalWidth := TotalWidthOfBricks(leftWall, rightWall);
    var totalHeight := TotalHeightOfBricks(bottomWall, topWall);
    if totalWidth <= 0.0 then Err(WidthNotPositive)
    else if totalHeight <= 0.0 then Err(HeightNotPositive)
    else
      var brickSize := BrickSize(totalWidth, totalHeight);
      var nColumns := FitCount(totalWidth, brickSize.x);
      var nRows := FitCount(totalHeight, brickSize.y);
      FitCountIsTarget(totalWidth);
      if nColumns == 0 then Err(ColumnGapUnderflow)
      else
        var nVerticalGaps := nColumns - 1;
        var centerOfBricks := (leftWall + rightWall) / 2.0;
        var leftEdgeOfBricks := centerOfBricks
          - (nColumns as real / 2.0 * brickSize.x)
          - nVerticalGaps as real / 2.0 * GAP_BETWEEN_BRICKS;
        var offsetX := leftEdgeOfBricks + brickSize.x / 2.0;
        var offsetY := BottomEdgeOfBricks(bottomWall) + brickSize.y / 2.0;
        Ok(Plan(brickSize, nColumns, nRows, Vec2(offsetX, offsetY)))
  }

  /** The brick that `setup` spawns at a row and column of a plan. */
  function BrickAt(p: Plan, row: nat, column: nat): Transform {
    Transform(Vec2(p.offset.x + column as real * Pitch(p.brickSize.x),
                   p.offset.y + row as real * Pitch(p.brickSize.y)),
              p.brickSize)
  }

  /** The first `n` bricks of one row, left to right. */
  function Row(p: Plan, row: nat, n: nat): seq<Transform> {
    if n == 0 then [] else Row(p, row, n - 1) + [BrickAt(p, row, n - 1)]
  }

  /** The first `n` full rows, bottom to top. */
  function Rows(p: Plan, n: nat): seq<Transform> {
    if n == 0 then [] else Rows(p, n - 1) + Row(p, n - 1, p.nColumns)
  }

  /** Every brick of a plan, in the order `setup` spawns them. */
  function Grid(p: Plan): seq<Transform> {
    Rows(p, p.nRows)
  }

  lemma {:induction false} RowAt(p: Plan, row: nat, n: nat, column: nat)
    requires column < n
    ensures |Row(p, row, n)| == n && Row(p, row, n)[column] == BrickAt(p, row, column)
  {
    if column < n - 1 {
      RowAt(p, row, n - 1, column);
    } else {
      RowLength(p, row, n - 1);
    }
  }

  lemma {:induction false} RowLength(p: Plan, row: nat, n: nat)
    ensures |Row(p, row, n)| == n
  {
    if n > 0 {
      RowLength(p, row, n - 1);
    }
  }

  lemma {:induction false} RowsLength(p: Plan, n: nat)
    ensures |Rows(p, n)| == n * p.nColumns
  {
    if n > 0 {
      RowsLength(p, n - 1);
      RowLength(p, n - 1, p.nColumns);
      assert (n - 1) * p.nColumns + p.nColumns == n * p.nColumns;
    }
  }

  lemma {:induction false} RowsAt(p: Plan, n: nat, row: nat, column: nat)
    requires row < n && column < p.nColumns
    ensures row * p.nColumns + column < |Rows(p, n)|
    ensures Rows(p, n)[row * p.nColumns + column] == BrickAt(p, row, column)
  {
    var c := p.nColumns;
    var k := row * c + column;
    var prefix := Rows(p, n - 1);
    var last := Row(p, n - 1, c);
    assert Rows(p, n) == prefix + last;
    RowsLength(p, n - 1);
    RowLength(p, n - 1, c);
    assert |prefix| == (n - 1) * c;
    if row < n - 1 {
      NatMulMonotone(row + 1, n - 1, c);
      assert k < (row + 1) * c;
      RowsAt(p, n - 1, row, column);
      assert k < |prefix|;
    } else {
      assert k == |prefix| + column;
      RowAt(p, row, c, column);
    }
  }

  lemma NatMulMonotone(a: nat, b: nat, c: nat)
    requires a <= b
    ensures a * c <= b * c
  {
    assert b * c - a * c == (b - a) * c;
  }

  /** `setup` spawns exactly `n_rows * n_columns` bricks, none when either
      count is 0. */
  lemma GridLength(p: Plan)
    ensures |Grid(p)| == p.nRows * p.nColumns
  {
    RowsLength(p, p.nRows);
  }

  /** The brick at a row and column is spawned after every brick of the rows
      below it and of the columns to its left in its own row. */
  lemma GridAt(p: Plan, row: nat, column: nat)
    requires row < p.nRows && column < p.nColumns
    ensures |Grid(p)| == p.nRows * p.nColumns
    ensures Grid(p)[row * p.nColumns + column] == BrickAt(p, row, column)
  {
    RowsLength(p, p.nRows);
    RowsAt(p, p.nRows, row, column);
  }

  /** Every spawned brick has the plan's brick size. */
  lemma {:induction false} GridScale(p: Plan, n: nat, k: nat)
    requires k < |Rows(p, n)|
    ensures Rows(p, n)[k].scale == p.brickSize
  {
    var prefix := Rows(p, n - 1);
    if k < |prefix| {
      GridScale(p, n - 1, k);
    } else {
      RowScale(p, n - 1, p.nColumns, k - |prefix|);
    }
  }

  lemma {:induction false} RowScale(p: Plan, row: nat, n: nat, k: nat)
    requires k < |Row(p, row, n)|
    ensures Row(p, row, n)[k].scale == p.brickSize
  {
    if k < |Row(p, row, n - 1)| {
      RowScale(p, row, n - 1, k);
    }
  }

  /** In exact arithmetic the fitted grid is always the 10 x 10 target grid. */
  lemma FittedGridIsTarget(leftWall: real, rightWall: real, bottomWall: real, topWall: real, p: Plan)
    requires Layout(leftWall, rightWall, bottomWall, topWall) == Ok(p)
    ensures p.nColumns == 10 && p.nRows == 10
  {
    FitCountIsTarget(TotalWidthOfBricks(leftWall, rightWall));
    FitCountIsTarget(TotalHeightOfBricks(bottomWall, topWall));
  }

  /** The fitted grid, bricks and the gap after each, never exceeds the
      available span, so the side and ceiling gaps are only lower bounds. */
  lemma GridFitsSpan(leftWall: real, rightWall: real, bottomWall: real, topWall: real, p: Plan)
    requires Layout(leftWall, rightWall, bottomWall, topWall) == Ok(p)
    ensures p.nColumns as real * Pitch(p.brickSize.x) <= TotalWidthOfBricks(leftWall, rightWall)
    ensures p.nRows as real * Pitch(p.brickSize.y) <= TotalHeightOfBricks(bottomWall, topWall)
  {
  }

  /** The pitch of the grid on each axis is positive. */
  lemma PitchPositive(leftWall: real, rightWall: real, bottomWall: real, topWall: real, p: Plan)
    requires Layout(leftWall, rightWall, bottomWall, topWall) == Ok(p)
    ensures Pitch(p.brickSize.x) > 0.0 && Pitch(p.brickSize.y) > 0.0
  {
  }

  /** The half-width of the brick block: the fitted bricks and the gaps
      between them, measured from the centre of the arena. */
  function HalfBlock(p: Plan): real {
    (p.nColumns as real * Pitch(p.brickSize.x) - GAP_BETWEEN_BRICKS) / 2.0
  }

  /** A brick's left edge is the block's left edge plus whole pitches. */
  lemma LeftEdgeOfColumn(leftWall: real, rightWall: real, bottomWall: real, topWall: real, p: Plan, row: nat, column: nat)
    requires Layout(leftWall, rightWall, bottomWall, topWall) == Ok(p)
    ensures BrickAt(p, row, column).Left() ==
              (leftWall + rightWall) / 2.0 - HalfBlock(p) + column as real * Pitch(p.brickSize.x)
  {
    var n := p.nColumns as real;
    var w := p.brickSize.x;
    var g := GAP_BETWEEN_BRICKS;
    assert n / 2.0 * w + (n - 1.0) / 2.0 * g == (n * (w + g) - g) / 2.0;
  }

  /** The block of bricks is centred on the arena: in every row the first
      brick's left edge and the last brick's right edge are equally far
      from the midpoint of the side walls. */
  lemma BlockCentred(leftWall: real, rightWall: real, bottomWall: real, topWall: real, p: Plan, row: nat)
    requires Layout(leftWall, rightWall, bottomWall, topWall) == Ok(p)
    ensures p.nColumns >= 1
    ensures var center := (leftWall + rightWall) / 2.0;
            center - BrickAt(p, row, 0).Left() == BrickAt(p, row, p.nColumns - 1).Right() - center
  {
    LeftEdgeOfColumn(leftWall, rightWall, bottomWall, topWall, p, row, 0);
    LeftEdgeOfColumn(leftWall, rightWall, bottomWall, topWall, p, row, p.nColumns - 1);
    var n := p.nColumns as real;
    var w := p.brickSize.x;
    var g := GAP_BETWEEN_BRICKS;
    assert (n - 1.0) * (w + g) + w == n * (w + g) - g;
  }

  /** Every brick lies between the side margins. */
  lemma WithinSideMargins(leftWall: real, rightWall: real, bottomWall: real, topWall: real, p: Plan, row: nat, column: nat)
    requires Layout(leftWall, rightWall, bottomWall, topWall) == Ok(p)
    requires row < p.nRows && column < p.nColumns
    ensures BrickAt(p, row, column).Left() >= leftWall + GAP_BETWEEN_BRICKS_AND_SIDES
    ensures BrickAt(p, row, column).Right() <= rightWall - GAP_BETWEEN_BRICKS_AND_SIDES
  {
    var brick := BrickAt(p, row, column);
    GridFitsSpan(leftWall, rightWall, bottomWall, topWall, p);
    PitchPositive(leftWall, rightWall, bottomWall, topWall, p);
    LeftEdgeOfColumn(leftWall, rightWall, bottomWall, topWall, p, row, column);
    WithinBlock((leftWall + rightWall) / 2.0 - HalfBlock(p), brick.Left(), brick.Right(),
                TotalWidthOfBricks(leftWall, rightWall), p.nColumns as real, column as real,
                Pitch(p.brickSize.x), GAP_BETWEEN_BRICKS);
  }

  /** The bottom row rests exactly `GAP_BETWEEN_PADDLE_AND_BRICKS` above the
      paddle's centre line, and no brick reaches into the ceiling gap. */
  lemma VerticalPlacement(leftWall: real, rightWall: real, bottomWall: real, topWall: real, p: Plan, row: nat, column: nat)
    requires Layout(leftWall, rightWall, bottomWall, topWall) == Ok(p)
    requires row < p.nRows
    ensures BrickAt(p, 0, column).Bottom() == PaddleY(bottomWall) + GAP_BETWEEN_PADDLE_AND_BRICKS
    ensures BrickAt(p, row, column).Bottom() >= PaddleY(bottomWall) + GAP_BETWEEN_PADDLE_AND_BRICKS
    ensures BrickAt(p, row, column).Top() <= topWall - GAP_BETWEEN_BRICKS_AND_CEILING
  {
    var brick := BrickAt(p, row, column);
    GridFitsSpan(leftWall, rightWall, bottomWall, topWall, p);
    PitchPositive(leftWall, rightWall, bottomWall, topWall, p);
    WithinBlock(BottomEdgeOfBricks(bottomWall), brick.Bottom(), brick.Top(),
                TotalHeightOfBricks(bottomWall, topWall), p.nRows as real, row as real,
                Pitch(p.brickSize.y), GAP_BETWEEN_BRICKS);
  }

  /** A brick in place `c` of a line of `n` bricks, laid out at a fixed
      pitch from `start`, lies between `start` and `start + n * pitch - gap`;
      when the line fits in `span`, that is at most `span - gap` from `start`. */
  lemma WithinBlock(start: real, near: real, far: real, span: real, n: real, c: real, pitch: real, gap: real)
    requires 0.0 < pitch && 0.0 <= c <= n - 1.0 && n * pitch <= span
    requires near == start + c * pitch && far == near + pitch - gap
    ensures start <= near && far <= start + n * pitch - gap <= start + span - gap
  {
    MulRightMonotone(0.0, c, pitch);
    MulRightMonotone(c, n - 1.0, pitch);
    assert (n - 1.0) * pitch == n * pitch - pitch;
  }

  /** Neighbours in a row, and in a column, are exactly one inter-brick gap apart. */
  lemma AdjacentGaps(p: Plan, row: nat, column: nat)
    ensures BrickAt(p, row, column + 1).Left() - BrickAt(p, row, column).Right() == GAP_BETWEEN_BRICKS
    ensures BrickAt(p, row + 1, column).Bottom() - BrickAt(p, row, column).Top() == GAP_BETWEEN_BRICKS
  {
    var c := column as real;
    var r := row as real;
    assert (c + 1.0) * Pitch(p.brickSize.x) == c * Pitch(p.brickSize.x) + Pitch(p.brickSize.x);
    assert (r + 1.0) * Pitch(p.brickSize.y) == r * Pitch(p.brickSize.y) + Pitch(p.brickSize.y);
  }

  /** Two different bricks of a laid-out grid are at least one inter-brick
      gap apart, horizontally or vertically, so no two bricks overlap. */
  lemma NoOverlap(leftWall: real, rightWall: real, bottomWall: real, topWall: real, p: Plan,
                  row1: nat, column1: nat, row2: nat, column2: nat)
    requires Layout(leftWall, rightWall, bottomWall, topWall) == Ok(p)
    requires (row1, column1) != (row2, column2)
    ensures var a, b := BrickAt(p, row1, column1), BrickAt(p, row2, column2);
            a.Right() + GAP_BETWEEN_BRICKS <= b.Left() || b.Right() + GAP_BETWEEN_BRICKS <= a.Left() ||
            a.Top() + GAP_BETWEEN_BRICKS <= b.Bottom() || b.Top() + GAP_BETWEEN_BRICKS <= a.Bottom()
  {
    PitchPositive(leftWall, rightWall, bottomWall, topWall, p);
    if column1 != column2 {
      if column1 < column2 {
        ColumnsApart(p, row1, column1, row2, column2);
      } else {
        ColumnsApart(p, row2, column2, row1, column1);
      }
    } else if row1 < row2 {
      RowsApart(p, row1, column1, row2, column2);
    } else {
      RowsApart(p, row2, column2, row1, column1);
    }
  }

  lemma ColumnsApart(p: Plan, row1: nat, column1: nat, row2: nat, column2: nat)
    requires column1 < column2 && Pitch(p.brickSize.x) > 0.0
    ensures BrickAt(p, row1, column1).Right() + GAP_BETWEEN_BRICKS <= BrickAt(p, row2, column2).Left()
  {
    Separated(p.offset.x, p.brickSize.x, column1, column2);
  }

  lemma RowsApart(p: Plan, row1: nat, column1: nat, row2: nat, column2: nat)
    requires row1 < row2 && Pitch(p.brickSize.y) > 0.0
    ensures BrickAt(p, row1, column1).Top() + GAP_BETWEEN_BRICKS <= BrickAt(p, row2, column2).Bottom()
  {
    Separated(p.offset.y, p.brickSize.y, row1, row2);
  }

  /** Two bricks of one size, placed `i` and `j > i` pitches from the same
      origin, leave at least one gap between them. */
  lemma Separated(origin: real, size: real, i: nat, j: nat)
    requires i < j && Pitch(size) > 0.0
    ensures origin + i as real * Pitch(size) + size / 2.0 + GAP_BETWEEN_BRICKS
              <= origin + j as real * Pitch(size) - size / 2.0
  {
    SeparatedAt(origin, size, Pitch(size), i, j);
  }

  lemma SeparatedAt(origin: real, size: real, pitch: real, i: nat, j: nat)
    requires i < j && 0.0 < pitch && pitch == size + GAP_BETWEEN_BRICKS
    ensures origin + i as real * pitch + size / 2.0 + GAP_BETWEEN_BRICKS
              <= origin + j as real * pitch - size / 2.0
  {
    MulRightMonotone(i as real + 1.0, j as real, pitch);
    assert (i as real + 1.0) * pitch == i as real * pitch + pitch;
  }

  /** The asserts on the spans do not make the bricks non-degenerate: a
      brick has positive width exactly when the available width exceeds
      ten inter-brick gaps, and likewise for its height. */
  lemma BrickSizePositive(leftWall: real, rightWall: real, bottomWall: real, topWall: real, p: Plan)
    requires Layout(leftWall, rightWall, bottomWall, topWall) == Ok(p)
    ensures p.brickSize.x > 0.0 <==> TotalWidthOfBricks(leftWall, rightWall) > TARGET_GRID * GAP_BETWEEN_BRICKS
    ensures p.brickSize.y > 0.0 <==> TotalHeightOfBricks(bottomWall, topWall) > TARGET_GRID * GAP_BETWEEN_BRICKS
  {
  }

  /** The arena the game starts with (900 x 600): a full 10 x 10 grid of
      83 x 20 bricks whose left and right margins are both 12.5. */
  lemma InitialArenaLayout()
    ensures Layout(LEFT_WALL, RIGHT_WALL, BOTTOM_WALL, TOP_WALL) == Ok(Plan(Vec2(83.0, 20.0), 10, 10, Vec2(-396.0, 40.0)))
    ensures var p := Plan(Vec2(83.0, 20.0), 10, 10, Vec2(-396.0, 40.0));
            BrickAt(p, 0, 0).Left() - LEFT_WALL == 12.5 && RIGHT_WALL - BrickAt(p, 0, 9).Right() == 12.5
  {
    FitCountIsTarget(880.0);
    FitCountIsTarget(250.0);
  }
}
