/**
 * The rectangles the maze is drawn with (index.js:35-40 and 133-180).
 * `Bodies.rectangle(x, y, w, h)` describes a rectangle by its centre
 * (x, y), its width and its height; lengths are exact reals here.
 */
module Layout {
  import opened Grids

  /** A rectangle given by its centre and its size. */
  datatype Rect = Rect(x: real, y: real, width: real, height: real)

  function Left(r: Rect): real { r.x - r.width / 2.0 }
  function Right(r: Rect): real { r.x + r.width / 2.0 }
  function Top(r: Rect): real { r.y - r.height / 2.0 }
  function Bottom(r: Rect): real { r.y + r.height / 2.0 }

  /** Thickness of the four boundary walls (index.js:18). */
  const WallWidth: real := 2.0
  /** Thickness of an inner wall (index.js:143 and 160). */
  const InnerWallWidth: real := 5.0
  /** Side of the goal as a fraction of a cell (index.js:173). */
  const GoalScale: real := 0.7

  /** `unitLength = width / cells` (index.js:8): the side of a cell, on both axes. */
  function UnitLength(width: real, cells: nat): (u: real)
    requires cells > 0
    ensures u * cells as real == width
    ensures width > 0.0 ==> u > 0.0
  {
    width / cells as real
  }

  /**
   * The four boundary walls of index.js:35-40, in that order: top, bottom,
   * left and right edge of the `width` by `height` canvas.
   */
  function Boundary(width: real, height: real): (walls: seq<Rect>)
    ensures |walls| == 4
    ensures Left(walls[0]) == 0.0 && Right(walls[0]) == width && walls[0].y == 0.0
    ensures Left(walls[1]) == 0.0 && Right(walls[1]) == width && walls[1].y == height
    ensures Top(walls[2]) == 0.0 && Bottom(walls[2]) == height && walls[2].x == 0.0
    ensures Top(walls[3]) == 0.0 && Bottom(walls[3]) == height && walls[3].x == width
    ensures walls[0].height == walls[1].height == walls[2].width == walls[3].width == WallWidth
  {
    [Rect(width / 2.0, 0.0, width, WallWidth),
     Rect(width / 2.0, height, width, WallWidth),
     Rect(0.0, height / 2.0, WallWidth, height),
     Rect(width, height / 2.0, WallWidth, height)]
  }

  /**
   * Which grid a wall comes from: `horizontals[r][c]` is the wall below
   * cell (r, c), `verticals[r][c]` the wall right of it.
   */
  datatype Orientation = Horizontal | Vertical

  /**
   * The wall drawn for the closed slot (r, c) of the `o` grid
   * (index.js:139-147 and 157-165), for cells of side `u`.
   */
  function WallAt(o: Orientation, r: int, c: int, u: real): (w: Rect)
    ensures o == Horizontal ==>
      && Left(w) == c as real * u && Right(w) == (c + 1) as real * u
      && w.y == (r + 1) as real * u && w.height == InnerWallWidth
    ensures o == Vertical ==>
      && Top(w) == r as real * u && Bottom(w) == (r + 1) as real * u
      && w.x == (c + 1) as real * u && w.width == InnerWallWidth
  {
    match o
    case Horizontal => Rect(c as real * u + u / 2.0, r as real * u + u, u, InnerWallWidth)
    case Vertical => Rect(c as real * u + u, r as real * u + u / 2.0, InnerWallWidth, u)
  }

  /** For cells of positive side, different slots get different walls. */
  lemma WallAtInjective(o: Orientation, r: int, c: int, r': int, c': int, u: real)
    requires u > 0.0
    requires WallAt(o, r, c, u) == WallAt(o, r', c', u)
    ensures r == r' && c == c'
  {
    var w, w' := WallAt(o, r, c, u), WallAt(o, r', c', u);
    ProductCancels(r + 1, r' + 1, u);
    ProductCancels(c + 1, c' + 1, u);
    if o == Horizontal {
      assert (r + 1) as real * u == w.y == w'.y == (r' + 1) as real * u;
      assert (c + 1) as real * u == Right(w) == Right(w') == (c' + 1) as real * u;
    } else {
      assert (c + 1) as real * u == w.x == w'.x == (c' + 1) as real * u;
      assert (r + 1) as real * u == Bottom(w) == Bottom(w') == (r' + 1) as real * u;
    }
  }

  lemma ProductCancels(a: int, b: int, u: real)
    requires u > 0.0
    ensures a as real * u == b as real * u ==> a == b
  {
    if a < b {
      assert (b - a) as real * u > 0.0;
      assert b as real * u - a as real * u == (b - a) as real * u;
    } else if b < a {
      assert (a - b) as real * u > 0.0;
      assert a as real * u - b as real * u == (a - b) as real * u;
    }
  }

  /** The inner `row.forEach` of index.js:135-149: one wall per closed slot, from column `c` on. */
  function RowWalls(o: Orientation, row: seq<bool>, r: int, c: int, u: real): (walls: seq<Rect>)
    ensures |walls| == CountRow(row, false)
    decreases |row|
  {
    if row == [] then []
    else (if row[0] then [] else [WallAt(o, r, c, u)]) + RowWalls(o, row[1..], r, c + 1, u)
  }

  /**
   * `grid.forEach(...)` of index.js:133-150 (for `horizontals`) and
   * index.js:152-168 (for `verticals`), from row `r` on: the walls of the
   * closed slots, row by row and left to right.
   */
  function Walls(o: Orientation, g: seq<seq<bool>>, r: int, u: real): (walls: seq<Rect>)
    ensures |walls| == Count(g, false)
    decreases |g|
  {
    if g == [] then [] else RowWalls(o, g[0], r, 0, u) + Walls(o, g[1..], r + 1, u)
  }

  /** The walls of a grid, numbered from its first row: one per closed slot. */
  function GridWalls(o: Orientation, g: seq<seq<bool>>, u: real): (walls: seq<Rect>)
    ensures |walls| == Count(g, false)
  {
    Walls(o, g, 0, u)
  }

  /** Every wall of a row stands on a closed slot of that row. */
  lemma {:induction false} RowWallsSound(o: Orientation, row: seq<bool>, r: int, c: int, u: real)
    ensures forall w :: w in RowWalls(o, row, r, c, u) ==>
      exists j :: 0 <= j < |row| && !row[j] && w == WallAt(o, r, c + j, u)
    decreases |row|
  {
    if row != [] {
      RowWallsSound(o, row[1..], r, c + 1, u);
      forall w | w in RowWalls(o, row, r, c, u)
        ensures exists j :: 0 <= j < |row| && !row[j] && w == WallAt(o, r, c + j, u)
      {
        if w in RowWalls(o, row[1..], r, c + 1, u) {
          var j :| 0 <= j < |row[1..]| && !row[1..][j] && w == WallAt(o, r, c + 1 + j, u);
          assert !row[j + 1] && w == WallAt(o, r, c + (j + 1), u);
        } else {
          assert !row[0] && w == WallAt(o, r, c + 0, u);
        }
      }
    }
  }

  /** Every wall emitted for a grid stands on one of its closed slots. */
  lemma {:induction false} WallsSound(o: Orientation, g: seq<seq<bool>>, r: int, u: real)
    ensures forall w :: w in Walls(o, g, r, u) ==>
      exists i, j :: 0 <= i < |g| && 0 <= j < |g[i]| && !g[i][j] && w == WallAt(o, r + i, j, u)
    decreases |g|
  {
    if g != [] {
      RowWallsSound(o, g[0], r, 0, u);
      WallsSound(o, g[1..], r + 1, u);
      forall w | w in Walls(o, g, r, u)
        ensures exists i, j :: 0 <= i < |g| && 0 <= j < |g[i]| && !g[i][j] && w == WallAt(o, r + i, j, u)
      {
        if w in RowWalls(o, g[0], r, 0, u) {
          var j :| 0 <= j < |g[0]| && !g[0][j] && w == WallAt(o, r, 0 + j, u);
          assert w == WallAt(o, r + 0, j, u);
        } else {
          assert w in Walls(o, g[1..], r + 1, u);
          var i, j :| 0 <= i < |g[1..]| && 0 <= j < |g[1..][i]| && !g[1..][i][j] && w == WallAt(o, (r + 1) + i, j, u);
          assert g[i + 1] == g[1..][i] && w == WallAt(o, r + (i + 1), j, u);
        }
      }
    }
  }

  /** A row emits the wall of slot `c + j` exactly when that slot is closed. */
  lemma {:induction false} RowWallsExact(o: Orientation, row: seq<bool>, r: int, c: int, u: real, r': int, j: int)
    requires u > 0.0
    ensures WallAt(o, r', c + j, u) in RowWalls(o, row, r, c, u) <==> r' == r && 0 <= j < |row| && !row[j]
    decreases |row|
  {
    if row != [] {
      RowWallsExact(o, row[1..], r, c + 1, u, r', j - 1);
      assert c + j == (c + 1) + (j - 1);
      if WallAt(o, r', c + j, u) == WallAt(o, r, c, u) {
        WallAtInjective(o, r', c + j, r, c, u);
      }
    }
  }

  /**
   * For cells of positive side, the grid emits the wall of slot (i, j)
   * exactly when (i, j) is a slot of the grid and is closed: a closed slot
   * always gets its wall, an open one never does.
   */
  lemma {:induction false} WallsExact(o: Orientation, g: seq<seq<bool>>, r: int, u: real, i: int, j: int)
    requires u > 0.0
    ensures WallAt(o, r + i, j, u) in Walls(o, g, r, u) <==> 0 <= i < |g| && 0 <= j < |g[i]| && !g[i][j]
    decreases |g|
  {
    if g != [] {
      RowWallsExact(o, g[0], r, 0, u, r + i, j);
      assert 0 + j == j;
      WallsExact(o, g[1..], r + 1, u, i - 1, j);
      assert r + i == (r + 1) + (i - 1);
      if 1 <= i < |g| {
        assert g[1..][i - 1] == g[i];
      }
    }
  }

  /**
   * The goal of index.js:170-178: a square of 70% of a cell, centred half a
   * cell in from the bottom-right corner of the canvas.
   */
  function Goal(width: real, height: real, u: real): (goal: Rect)
    ensures goal.width == goal.height == GoalScale * u
    ensures Right(goal) == width - u / 2.0 + GoalScale * u / 2.0
    ensures Bottom(goal) == height - u / 2.0 + GoalScale * u / 2.0
  {
    Rect(width - u / 2.0, height - u / 2.0, u * GoalScale, u * GoalScale)
  }

  /**
   * On a square canvas the goal sits inside the bottom-right cell
   * (cells - 1, cells - 1), centred in it. On a canvas that is not square
   * it does not: both axes use `width / cells`, so the bottom cell row ends
   * at `width`, while the goal is placed from `height`.
   */
  lemma GoalInLastCell(size: real, cells: nat)
    requires size > 0.0 && cells > 0
    ensures var u := UnitLength(size, cells);
      var goal := Goal(size, size, u);
      var corner := (cells - 1) as real * u;
      && goal.x == corner + u / 2.0 && goal.y == corner + u / 2.0
      && corner < Left(goal) && Right(goal) < corner + u
      && corner < Top(goal) && Bottom(goal) < corner + u
  {
    var u := UnitLength(size, cells);
    assert u * cells as real == size;
    assert (cells - 1) as real * u == cells as real * u - u;
    assert u > 0.0;
  }

  /**
   * Everything index.js adds to the world, in order: the boundary
   * (index.js:41), the walls of the closed `horizontals` slots
   * (index.js:133-150), those of the closed `verticals` slots
   * (index.js:152-168) and the goal (index.js:180).
   */
  function Scene(width: real, height: real, cells: nat, verticals: seq<seq<bool>>, horizontals: seq<seq<bool>>): (bodies: seq<Rect>)
    requires cells > 0
    ensures var u := UnitLength(width, cells);
      var nh, nv := |GridWalls(Horizontal, horizontals, u)|, |GridWalls(Vertical, verticals, u)|;
      && |bodies| == 4 + nh + nv + 1 == 5 + Count(horizontals, false) + Count(verticals, false)
      && bodies[..4] == Boundary(width, height)
      && bodies[4..4 + nh] == GridWalls(Horizontal, horizontals, u)
      && bodies[4 + nh..4 + nh + nv] == GridWalls(Vertical, verticals, u)
      && bodies[|bodies| - 1] == Goal(width, height, u)
  {
    var u := UnitLength(width, cells);
    var bodies := Boundary(width, height) + GridWalls(Horizontal, horizontals, u) + GridWalls(Vertical, verticals, u)
                  + [Goal(width, height, u)];
    bodies
  }

  /**
   * For cells of positive size and any opening grids, the world holds five
   * bodies more than there are closed slots: the boundary first, then among
   * the `horizontals` walls the wall of slot (i, j) exactly when that slot
   * exists and is closed, then likewise among the `verticals` walls, and the
   * goal last.
   */
  lemma SceneExact(width: real, height: real, cells: nat, verticals: seq<seq<bool>>, horizontals: seq<seq<bool>>)
    requires width > 0.0 && cells > 0
    ensures var bodies := Scene(width, height, cells, verticals, horizontals);
      var u := UnitLength(width, cells);
      var nh := Count(horizontals, false);
      && |bodies| == 5 + Count(horizontals, false) + Count(verticals, false)
      && bodies[..4] == Boundary(width, height)
      && (forall i, j :: WallAt(Horizontal, i, j, u) in bodies[4..4 + nh] <==>
            0 <= i < |horizontals| && 0 <= j < |horizontals[i]| && !horizontals[i][j])
      && (forall i, j :: WallAt(Vertical, i, j, u) in bodies[4 + nh..|bodies| - 1] <==>
            0 <= i < |verticals| && 0 <= j < |verticals[i]| && !verticals[i][j])
      && bodies[|bodies| - 1] == Goal(width, height, u)
  {
    var u := UnitLength(width, cells);
    var bodies := Scene(width, height, cells, verticals, horizontals);
    var nh := Count(horizontals, false);
    assert bodies[4..4 + nh] == GridWalls(Horizontal, horizontals, u);
    assert bodies[4 + nh..|bodies| - 1] == GridWalls(Vertical, verticals, u);
    GridWallsExact(Horizontal, horizontals, u);
    GridWallsExact(Vertical, verticals, u);
  }

  /** For cells of positive size, a grid emits the wall of slot (i, j) exactly when that slot exists and is closed. */
  lemma GridWallsExact(o: Orientation, g: seq<seq<bool>>, u: real)
    requires u > 0.0
    ensures forall i, j :: WallAt(o, i, j, u) in GridWalls(o, g, u) <==> 0 <= i < |g| && 0 <= j < |g[i]| && !g[i][j]
  {
    forall i, j
      ensures WallAt(o, 0 + i, j, u) in GridWalls(o, g, u) <==> 0 <= i < |g| && 0 <= j < |g[i]| && !g[i][j]
    {
      WallsExact(o, g, 0, u, i, j);
    }
  }

}
