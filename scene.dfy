/**
 * The whole script of index.js: generate a maze on the constant board
 * (index.js:4-8, 61-74 and 130) and lay it out as rectangles
 * (index.js:35-41 and 133-180).
 */
module MazeScene {
  import opened Grids
  import opened RandomSource
  import opened MazeGeneration
  import opened Layout

  /** The board and canvas of index.js:4-6. */
  const Cells: nat := 3
  const Width: real := 600.0
  const Height: real := 600.0

  /**
   * For any opening grids of the `n` by `n` board, the inner walls number
   * the `(n - 1) * n + n * (n - 1)` slots less the open ones.
   */
  lemma WallCount(n: nat, v: seq<seq<bool>>, h: seq<seq<bool>>, u: real)
    requires n >= 1 && Shape(v, n, n - 1) && Shape(h, n - 1, n)
    ensures |GridWalls(Horizontal, h, u)| + |GridWalls(Vertical, v, u)|
         == (n - 1) * n + n * (n - 1) - (Count(v, true) + Count(h, true))
  {
    CountSplit(v, n - 1);
    CountSplit(h, n);
  }

  /**
   * A maze whose openings form a spanning tree of the `n` by `n` board has
   * `(n - 1) * (n - 1)` inner walls: of the `2 * n * (n - 1)` slots,
   * `n * n - 1` are open.
   */
  lemma TreeWallCount(n: nat, v: seq<seq<bool>>, h: seq<seq<bool>>, u: real)
    requires n >= 1 && Shape(v, n, n - 1) && Shape(h, n - 1, n)
    requires Count(v, true) + Count(h, true) == n * n - 1
    ensures |GridWalls(Horizontal, h, u)| + |GridWalls(Vertical, v, u)| == (n - 1) * (n - 1)
  {
    WallCount(n, v, h, u);
    SlotArithmetic(n);
  }

  lemma SlotArithmetic(n: int)
    ensures n * (n - 1) + (n - 1) * n - (n * n - 1) == (n - 1) * (n - 1)
  {
    var m := n - 1;
    assert n * m == m * m + m;
    assert n * n == m * m + 2 * m + 1;
  }

  /**
   * The world index.js builds for a spanning-tree maze: the boundary, one
   * wall for each closed slot of `horizontals` and of `verticals` (and none
   * for an open one), and the goal, `(n - 1) * (n - 1) + 5` bodies in all.
   */
  lemma TreeScene(width: real, height: real, n: nat, v: seq<seq<bool>>, h: seq<seq<bool>>)
    requires width > 0.0
    requires n >= 1 && Shape(v, n, n - 1) && Shape(h, n - 1, n)
    requires Count(v, true) + Count(h, true) == n * n - 1
    ensures var bodies := Scene(width, height, n, v, h);
      var u := UnitLength(width, n);
      var nh := |GridWalls(Horizontal, h, u)|;
      && |bodies| == (n - 1) * (n - 1) + 5
      && bodies[..4] == Boundary(width, height)
      && (forall i, j :: 0 <= i < n - 1 && 0 <= j < n ==>
            (WallAt(Horizontal, i, j, u) in bodies[4..4 + nh] <==> !h[i][j]))
      && (forall i, j :: 0 <= i < n && 0 <= j < n - 1 ==>
            (WallAt(Vertical, i, j, u) in bodies[4 + nh..|bodies| - 1] <==> !v[i][j]))
      && bodies[|bodies| - 1] == Goal(width, height, u)
  {
    var u := UnitLength(width, n);
    SceneExact(width, height, n, v, h);
    TreeWallCount(n, v, h, u);
  }

  /**
   * The script on the constant 3 by 3 board and 600 by 600 canvas: the maze
   * is the generator run on the next draws (so the world is fixed by them),
   * with nine bodies in all, four inner walls among them, and the goal a
   * 140 by 140 square centred at (500, 500).
   */
  method Build(random: Random) returns (maze: Maze, bodies: seq<Rect>)
    requires random.Valid()
    modifies random
    ensures fresh(maze) && maze.cells == Cells && maze.random == random && maze.Valid()
    ensures maze.Snapshot() == Generate(Cells, random.stream, old(random.drawn))
    ensures bodies == Scene(Width, Height, Cells, maze.verticals, maze.horizontals)
    ensures |bodies| == 9
    ensures bodies[8] == Rect(500.0, 500.0, 140.0, 140.0)
  {
    maze := new Maze(Cells, random);
    bodies := Scene(Width, Height, Cells, maze.verticals, maze.horizontals);
    TreeScene(Width, Height, Cells, maze.verticals, maze.horizontals);
  }
}
