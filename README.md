# a-zing maze generator, modelled in Dafny

This project models `index.js`, the maze of onTheDL/a-zing. The maze is a
"recursive backtracker": a randomized depth-first traversal of a
`cells` by `cells` board. It starts from a random cell and removes the wall
between each cell and every neighbour it is the first to reach. The
generator keeps three grids:

- `grid`: the visited flags.
- `verticals`: `verticals[r][c]` is true when the wall between (r, c) and (r, c + 1) is gone.
- `horizontals`: `horizontals[r][c]` is true when the wall between (r, c) and (r + 1, c) is gone.

After generation, each closed slot is drawn as a thin rectangle. The drawing
also has four boundary walls around the canvas and a goal square in the
bottom-right cell.

The modules are:

- `RandomSource` (`random.dfy`): `Math.random()` as a fixed stream of draws in [0, 1) with a cursor, `Random`. `Math.floor(Math.random() * n)` is `RandomIndex`.
- `Shuffling` (`shuffle.dfy`): `shuffle`, an in-place method on an `array`. It is specified by the recursive function `ShuffleFrom`, which describes what the remaining loop iterations do.
- `Grids` (`grids.dfy`): the JavaScript arrays of arrays as `seq<seq<bool>>`, with their construction, the assignment `g[r][c] = true`, and counts of true and false entries.
- `Passages` (`passages.dfy`): the maze as a graph. An opening links two adjacent cells, and `Connected` means a walk through openings leads from one cell to the other.
- `MazeGeneration` (`maze.dfy`): class `Maze`, whose fields are the three grids. The methods update these fields in place. The constructor is the script's set-up: it fills the grids, draws the start cell and calls `traverseCell`. The body of the neighbour loop is the method `VisitNeighbour`, called once per entry by `TraverseCell`.
  The ghost functions `Traverse` and `Generate` compute the resulting state from the starting state and the stream of draws. The methods are proved to produce exactly that state, so a run is determined by its draws. The lemmas about `Traverse` carry the spanning-tree argument.
- `Layout` (`layout.dfy`): the rectangles as pure functions of the grids. This covers the boundary, one wall per closed slot (row by row, left to right, as the `forEach` loops emit them) and the goal.
- `MazeScene` (`scene.dfy`): the whole script on the constant 3 by 3 board and 600 by 600 canvas, plus the wall-count facts.

The main results are:

- `traverseCell` run from the start cell carves a spanning tree. Every cell is visited, exactly `cells * cells - 1` walls are removed, and any two cells are joined by a walk through the openings. The source fixes `cells` at 3; the model proves this for every `cells >= 1`.
- `shuffle` permutes its array and draws one index in `[0, counter)` per element.
- The drawing has a wall for a slot exactly when that slot is closed. So a spanning-tree maze has `(cells - 1) * (cells - 1)` inner walls. The 3 by 3 scene has nine bodies, and the goal is a 140 by 140 square centred at (500, 500).

Both axes use `unitLength = width / cells` (index.js:8). The code has no
separate cell height derived from `height`, and the model follows it. As a
result, the goal is centred in the bottom-right cell only on a square
canvas (`GoalInLastCell`). The script's own canvas is square.

## Model

| member | source | states |
|---|---|---|
| RandomSource.RandomIndex | index.js:50 | `Math.floor(x * n)` for a draw `x` in [0, 1) is an index in [0, n) |
| RandomSource.ScaledIsProduct | index.js:50 | the repeated sum used for `x * n` equals the product `x * n` |
| RandomSource.Random.constructor | index.js:50 | a generator starts at the first draw of a stream whose draws all lie in [0, 1) |
| RandomSource.Random.Next | index.js:73-74 | one call of `Math.random()` returns the next draw of the stream, which lies in [0, 1), and advances the cursor by one |
| Shuffling.Swap | index.js:54-56 | the three assignments exchange the entries at `counter` and `index` and keep the length |
| Shuffling.SwapKeeps | index.js:54-56 | the swap leaves every entry other than the two exchanged ones as it was |
| Shuffling.SwapPermutes | index.js:54-56 | the swap keeps the multiset of entries |
| Shuffling.ShuffleFrom | index.js:49-57 | the remaining loop iterations, one draw and one swap each, keep the length of the array |
| Shuffling.ShuffleFromKeeps | index.js:49-57 | the remaining iterations never move an entry at or beyond `counter` |
| Shuffling.ShuffleFromPermutes | index.js:49-57 | any number of remaining loop iterations only permute the array (the multiset is unchanged) |
| Shuffling.Shuffled | index.js:46-59 | the whole shuffle keeps the length of the array |
| Shuffling.ShuffledPermutes | index.js:46-59 | the whole shuffle is a permutation of its input |
| Shuffling.Shuffle | index.js:46-59 | `shuffle` leaves the array equal to the specification `Shuffled` of its old contents and a permutation of them, and takes exactly one draw per element |
| Grids.Filled | index.js:61-71 | `Array(rows).fill(null).map(() => Array(cols).fill(b))` has `rows` rows of `cols` entries, all equal to `b` |
| Grids.SetTrue | index.js:81 | `g[r][c] = true` keeps the shape, sets (r, c) and leaves every other entry as it was |
| Grids.CountSetTrue | index.js:81 | setting a false entry raises the count of true entries by one and lowers the count of false ones by one |
| Grids.CountSplit | index.js:61-71 | the true and false entries of a `rows` by `cols` grid together number `rows * cols` |
| Grids.CountNone | index.js:61-71 | a grid with no entry equal to `b` counts zero entries equal to `b` |
| Grids.CountAll | index.js:61-71 | a filled grid counts all its `rows * cols` entries as equal to its fill value |
| Passages.ConnectedGrows | index.js:108-122 | walls are never put back, so a walk through the openings stays a walk while the opening grids grow |
| Passages.ConnectedStep | index.js:108-125 | a step through an opening followed by a walk is a walk |
| Passages.ConnectedSymmetric | index.js:108-122 | a graph fact about the openings these writes create: an opening joins its two cells in both directions, so walks can be reversed |
| Passages.ConnectedTransitive | index.js:108-122 | a graph fact about the openings these writes create: two walks that meet make one walk |
| MazeGeneration.Candidates | index.js:84-89 | the neighbour list built before the shuffle has four entries |
| MazeGeneration.CandidatesAround | index.js:85-88 | each of the four entries points one step from the cell in its own direction, and the four directions differ |
| MazeGeneration.Opened | index.js:110-122 | removing the wall to an on-board neighbour keeps the visited flags, the draw count and the shapes, and only sets openings |
| MazeGeneration.Traverse | index.js:76-128 | the state `traverseCell` leaves, as a function of the state it starts in and the draws: shapes kept, and never more unvisited cells |
| MazeGeneration.Explore | index.js:92-126 | the neighbour loop from a given entry on keeps the shapes and never adds unvisited cells |
| MazeGeneration.Step | index.js:94-125 | one pass of the loop keeps the shapes and never adds unvisited cells |
| MazeGeneration.Descend | index.js:108-125 | removing a wall and recursing keeps the shapes and never adds unvisited cells |
| MazeGeneration.Generate | index.js:61-130 | the whole run from fresh grids and a drawn start cell, as a function of the draws, yields well-shaped grids |
| MazeGeneration.GenerateSpans | index.js:61-130 | whatever the draws, the whole run visits every cell, removes `n * n - 1` walls and connects every two cells |
| MazeGeneration.ShuffledCandidates | index.js:84-89 | the shuffled neighbour list has four entries, each one of the candidates |
| MazeGeneration.ShuffledCovers | index.js:84-89 | every candidate occurs in the shuffled neighbour list |
| MazeGeneration.TraverseStart | index.js:78-92 | on an unvisited cell, `Traverse` is the loop over the shuffled list, started after marking the cell and taking four draws |
| MazeGeneration.ExploreStep | index.js:92-125 | the loop from entry `i` equals one pass for entry `i` followed by the loop from entry `i + 1` |
| MazeGeneration.ExploreDone | index.js:92-126 | at the end of the list the loop's result is the state reached |
| MazeGeneration.TraverseExplores | index.js:76-128 | on a visited cell `Traverse` changes nothing; on an unvisited one it finishes a traversal: the cell visited, flags and openings only set, one wall removed per newly visited cell but the first, every newly visited cell reached from it with all its neighbours off the board or visited |
| MazeGeneration.TraverseProgress | index.js:92-126 | on an unvisited cell, `Traverse` keeps the loop invariant over the whole shuffled neighbour list |
| MazeGeneration.TraverseGrows | index.js:76-128 | `Traverse` only sets visited flags and leaves every opening between visited cells |
| MazeGeneration.ExploreExplores | index.js:92-126 | the loop over the remaining entries keeps the loop invariant and handles every entry of the list |
| MazeGeneration.StepExplores | index.js:94-125 | one pass of the loop keeps the loop invariant and handles its entry |
| MazeGeneration.Maze.constructor | index.js:61-130 | fresh grids, a start cell from the next two draws, then `traverseCell` from it: the state is exactly `Generate` of the draws; it is consistent, every cell is visited, `cells * cells - 1` walls are removed and every two cells are connected |
| MazeGeneration.Maze.ShuffledNeighbours | index.js:84-89 | the list is exactly `Shuffled` of the four candidates with the next four draws, and exactly four draws are taken; it holds each candidate and nothing else |
| MazeGeneration.Maze.RemoveWall | index.js:108-122 | for an on-board, unvisited neighbour, the new state is `Opened`: exactly one slot is opened (the one between the two cells), it is in bounds, nothing else changes, and the two cells become linked |
| MazeGeneration.Maze.VisitNeighbour | index.js:94-125 | one pass of the loop body leaves exactly the state `Step` computes, keeps the invariant and never adds unvisited cells |
| MazeGeneration.Maze.TraverseCell | index.js:76-128 | the new state is exactly `Traverse` of the old state and the draws. On a visited cell nothing changes and no draw is taken. Otherwise the cell ends up visited; flags and openings only ever go from false to true; one wall is removed per newly visited cell other than the first; every newly visited cell is reached from this one and has all its neighbours off the board or visited |
| MazeGeneration.SpanningTree | index.js:130 | a traversal that starts on an empty board and runs to completion leaves every cell visited, `n * n - 1` openings and every two cells connected |
| MazeGeneration.Started | index.js:78-81 | marking an unvisited cell visited starts a traversal: it is the one newly visited cell and is reached from itself |
| MazeGeneration.Skipped | index.js:97-106 | a neighbour that is off the board or already visited can be skipped without breaking the loop invariant |
| MazeGeneration.ChildExplored | index.js:108-125 | after opening the wall to an unvisited neighbour and traversing it, the loop invariant holds with that neighbour handled |
| MazeGeneration.ChildReached | index.js:124-125 | the cells visited by the recursive call are reached from the caller's cell through the new opening |
| MazeGeneration.SettledGrows | index.js:78-81 | neighbours that are off the board or visited stay so while the visited flags grow |
| MazeGeneration.Finished | index.js:92-126 | after the loop over a list holding all four candidates, every neighbour of the cell is off the board or visited |
| MazeGeneration.OpenedOne | index.js:110-122 | each of the four writes is in bounds and opens a slot that was closed; the open count rises by one and links the cell to its neighbour |
| MazeGeneration.ClosedBoardIsFull | index.js:92-126 | a set of visited cells that contains the start and, with each cell, all its on-board neighbours, covers the whole board |
| Layout.UnitLength | index.js:8 | the cell side times `cells` is the canvas width, and it is positive on a canvas of positive width |
| Layout.Boundary | index.js:35-40 | four walls of thickness 2, in the order top, bottom, left, right, each centred on one edge of the canvas and spanning it |
| Layout.WallAt | index.js:139-165 | a horizontal wall lies on the edge below cell (r, c) and spans that cell's width; a vertical wall lies on the edge right of it and spans its height; both are 5 thick |
| Layout.WallAtInjective | index.js:133-168 | for cells of positive size, two different slots never get the same wall |
| Layout.RowWalls | index.js:135-149 | a row emits one wall per closed slot |
| Layout.Walls | index.js:133-168 | a grid, from a given row on, emits one wall per closed slot |
| Layout.GridWalls | index.js:133-168 | a whole grid emits one wall per closed slot |
| Layout.RowWallsSound | index.js:135-149 | every wall a row emits stands on a closed slot of that row |
| Layout.WallsSound | index.js:133-168 | every wall a grid emits stands on a closed slot of that grid |
| Layout.RowWallsExact | index.js:135-149 | a row emits the wall of a slot if and only if the slot is in the row and closed |
| Layout.WallsExact | index.js:133-168 | a grid emits the wall of slot (i, j) if and only if (i, j) is a slot of the grid and is closed |
| Layout.GridWallsExact | index.js:133-168 | for every (i, j), a whole grid emits the wall of slot (i, j) if and only if that slot exists and is closed |
| Layout.Goal | index.js:170-178 | the goal is a square 70% of a cell wide, centred half a cell in from the bottom-right corner |
| Layout.GoalInLastCell | index.js:170-178 | on a square canvas the goal is centred in the bottom-right cell and lies strictly inside it |
| Layout.Scene | index.js:35-180 | the world is the boundary, then the horizontal walls, then the vertical walls, then the goal, in the order they are added: five bodies more than there are closed slots |
| Layout.SceneExact | index.js:35-180 | for any opening grids: five bodies more than closed slots, the boundary first, among the horizontal walls the wall of a slot exactly when that slot exists and is closed, likewise among the vertical walls, and the goal last |
| MazeScene.WallCount | index.js:133-168 | the inner walls number `(n - 1) * n + n * (n - 1)` less the open slots |
| MazeScene.TreeWallCount | index.js:133-168 | a spanning-tree maze has `(n - 1) * (n - 1)` inner walls |
| MazeScene.TreeScene | index.js:35-180 | for a spanning-tree maze the world has `(n - 1) * (n - 1) + 5` bodies: the boundary, a wall for each closed slot and none for an open one, and the goal last |
| MazeScene.Build | index.js:4-180 | on the 3 by 3 board and 600 by 600 canvas the maze is fresh and consistent, and its state (grids and draws taken) is exactly `Generate` of the stream from the current draw; the world is `Scene` of its grids, has nine bodies and ends with the goal centred at (500, 500), 140 by 140 |

## Left out

- The Matter.js engine, renderer and runner, `World.add` and `document.body` (index.js:1, 20-32, 41, 148, 166, 180) are not modelled. These are foreign library and DOM calls. The world is the returned sequence of rectangles, in the order it is filled.
- The `isStatic` option and all physics behaviour are not modelled.
- `Math.random` is not modelled as a distribution. It is a caller-supplied stream of reals in [0, 1) (`RandomSource.Random`). Nothing is said about uniformity.
- JavaScript numbers are exact reals here. There is no floating-point rounding in `x * n`, in `width / cells` or in the factor 0.7.
- Grids: the JavaScript arrays of arrays are `seq<seq<bool>>` fields that each write replaces. So the model does not capture aliasing between rows. The source never aliases its rows.
- `cells` is a constructor parameter with `cells >= 1`; the source fixes it at 3. With `cells` = 0 the source would throw at `Array(cells - 1)`, that is `Array(-1)` (index.js:69), so that case is excluded.
- MazeGeneration.Maze.TraverseCell: the JavaScript recursion can go up to `cells * cells` calls deep, and a large board would exhaust the engine's call stack; the model has no such limit, so the results for every `cells >= 1` ignore it (the script's `cells` = 3 is far below it).
- MazeGeneration.SpanningTree: states connectivity and `n * n - 1` openings. It does not separately prove that the openings have no cycle, which follows from these two facts by graph theory.
- The game-state controller, the win state, collision handling, keyboard input and the actor's spawn position are not part of `index.js`. The win-state logic is not part of this model.
