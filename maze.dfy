/**
 * Maze generation (index.js:61-130): a randomized depth-first traversal
 * ("recursive backtracker") over a `cells` by `cells` board that removes
 * the wall between a cell and each neighbour it is first to reach.
 */
module MazeGeneration {
  import opened Grids
  import opened Passages
  import opened RandomSource
  import opened Shuffling

  datatype Direction = Up | Right | Down | Left

  /** One entry of the neighbour list: `[nextRow, nextColumn, direction]`. */
  datatype Neighbour = Neighbour(row: int, col: int, direction: Direction)

  /** The cell one step from (row, col) in direction `d`. */
  function Toward(row: int, col: int, d: Direction): Cell {
    match d
    case Up => Cell(row - 1, col)
    case Right => Cell(row, col + 1)
    case Down => Cell(row + 1, col)
    case Left => Cell(row, col - 1)
  }

  /**
   * The neighbour list of (row, col) before it is shuffled, in the order
   * index.js:85-88 builds it: four entries (see `CandidatesAround`).
   */
  function Candidates(row: int, col: int): (r: seq<Neighbour>)
    ensures |r| == 4
  {
    [Neighbour(row - 1, col, Up), Neighbour(row, col + 1, Right),
     Neighbour(row + 1, col, Down), Neighbour(row, col - 1, Left)]
  }

  /**
   * Each candidate of (row, col) points one step from it in its own
   * direction, and the four directions differ.
   */
  lemma CandidatesAround(row: int, col: int)
    ensures var r := Candidates(row, col);
      && (forall k :: 0 <= k < 4 ==> Target(r[k]) == Toward(row, col, r[k].direction))
      && (forall k, k' :: 0 <= k < k' < 4 ==> r[k].direction != r[k'].direction)
  {
  }

  /** `q` is off the board or already visited: either way the traversal skips it. */
  predicate Settled(g: seq<seq<bool>>, n: int, q: Cell) {
    !OnBoard(n, q) || Visited(g, q)
  }

  /** All four neighbours of `p` are off the board or visited. */
  ghost predicate NeighboursSettled(g: seq<seq<bool>>, n: int, p: Cell) {
    && Settled(g, n, Cell(p.row - 1, p.col))
    && Settled(g, n, Cell(p.row, p.col + 1))
    && Settled(g, n, Cell(p.row + 1, p.col))
    && Settled(g, n, Cell(p.row, p.col - 1))
  }

  /** Cell `p` is on the board of `g` and its visited flag is set. */
  predicate Visited(g: seq<seq<bool>>, p: Cell) {
    IsSet(g, p.row, p.col)
  }

  /** `p` is visited in `after` but was not in `before`. */
  ghost predicate NewlyVisited(before: seq<seq<bool>>, after: seq<seq<bool>>, p: Cell) {
    !Visited(before, p) && Visited(after, p)
  }

  /** The three grids have the shapes index.js:61-71 gives them. */
  ghost predicate WellFormed(n: int, g: seq<seq<bool>>, v: seq<seq<bool>>, h: seq<seq<bool>>) {
    n >= 1 && Shape(g, n, n) && Shape(v, n, n - 1) && Shape(h, n - 1, n)
  }

  /** `p` is visited, or is one of the `pending` cells about to be visited. */
  predicate Reached(g: seq<seq<bool>>, p: Cell, pending: set<Cell>) {
    p in pending || Visited(g, p)
  }

  /** Both cells on either side of every opening are reached. */
  ghost predicate OpeningsReached(g: seq<seq<bool>>, v: seq<seq<bool>>, h: seq<seq<bool>>, pending: set<Cell>) {
    && (forall r, c :: IsSet(v, r, c) ==> Reached(g, Cell(r, c), pending) && Reached(g, Cell(r, c + 1), pending))
    && (forall r, c :: IsSet(h, r, c) ==> Reached(g, Cell(r, c), pending) && Reached(g, Cell(r + 1, c), pending))
  }

  /** The cell a neighbour entry points at. */
  function Target(nb: Neighbour): Cell {
    Cell(nb.row, nb.col)
  }

  /**
   * What a traversal entered at the unvisited cell `here` has done so far,
   * from grids (g0, v0, h0) to (g, v, h): the state is still consistent,
   * `here` is visited, flags and openings were only ever set, at least one
   * cell was newly visited, exactly one wall was removed for each newly
   * visited cell but the first, and every newly visited cell is reached
   * from `here` through the openings.
   */
  ghost predicate Grown(n: int, g0: seq<seq<bool>>, v0: seq<seq<bool>>, h0: seq<seq<bool>>,
                        g: seq<seq<bool>>, v: seq<seq<bool>>, h: seq<seq<bool>>, here: Cell)
  {
    && WellFormed(n, g, v, h) && OpeningsReached(g, v, h, {})
    && Visited(g, here)
    && Grows(g0, g) && Grows(v0, v) && Grows(h0, h)
    && Count(g, false) < Count(g0, false)
    && Count(v, true) + Count(h, true) + 1 + Count(g, false) == Count(v0, true) + Count(h0, true) + Count(g0, false)
    && (forall p: Cell :: NewlyVisited(g0, g, p) ==> Connected(v, h, here, p))
  }

  /** A finished traversal from `here`: every newly visited cell has all its neighbours settled. */
  ghost predicate Explored(n: int, g0: seq<seq<bool>>, v0: seq<seq<bool>>, h0: seq<seq<bool>>,
                           g: seq<seq<bool>>, v: seq<seq<bool>>, h: seq<seq<bool>>, here: Cell)
  {
    && Grown(n, g0, v0, h0, g, v, h, here)
    && (forall p: Cell :: NewlyVisited(g0, g, p) ==> NeighboursSettled(g, n, p))
  }

  /**
   * A traversal from `here` part-way through its neighbour loop, having
   * handled the neighbours `done`: each of them is settled, and so are the
   * neighbours of every newly visited cell other than `here`.
   */
  ghost predicate Progress(n: int, g0: seq<seq<bool>>, v0: seq<seq<bool>>, h0: seq<seq<bool>>,
                           g: seq<seq<bool>>, v: seq<seq<bool>>, h: seq<seq<bool>>, here: Cell, done: seq<Neighbour>)
  {
    && Grown(n, g0, v0, h0, g, v, h, here)
    && (forall p: Cell :: NewlyVisited(g0, g, p) && p != here ==> NeighboursSettled(g, n, p))
    && (forall k :: 0 <= k < |done| ==> Settled(g, n, Target(done[k])))
  }

  /** The generator's state as a value: the three grids and the number of draws taken so far. */
  datatype State = State(grid: seq<seq<bool>>, verticals: seq<seq<bool>>, horizontals: seq<seq<bool>>, drawn: nat)

  /**
   * The state after removing the wall between (row, col) and its on-board
   * neighbour `nb` (index.js:110-122): a `left` or `right` neighbour opens a
   * slot of `verticals`, an `up` or `down` one a slot of `horizontals`.
   */
  function Opened(n: int, s: State, row: int, col: int, nb: Neighbour): (r: State)
    requires WellFormed(n, s.grid, s.verticals, s.horizontals) && 0 <= row < n && 0 <= col < n
    requires nb in Candidates(row, col) && OnBoard(n, Target(nb))
    ensures r.grid == s.grid && r.drawn == s.drawn && WellFormed(n, r.grid, r.verticals, r.horizontals)
    ensures Grows(s.verticals, r.verticals) && Grows(s.horizontals, r.horizontals)
  {
    match nb.direction
    case Left => s.(verticals := SetTrue(s.verticals, row, col - 1))
    case Right => s.(verticals := SetTrue(s.verticals, row, col))
    case Up => s.(horizontals := SetTrue(s.horizontals, row - 1, col))
    case Down => s.(horizontals := SetTrue(s.horizontals, row, col))
  }

  /**
   * What `traverseCell(row, col)` (index.js:76-128) leaves behind, computed
   * from the state it starts in and the stream of draws: nothing changes on
   * a visited cell; otherwise the cell is marked, four draws shuffle its
   * neighbour list, and `Explore` handles the list in that order. The
   * result keeps the shapes and never has more unvisited cells.
   */
  ghost function Traverse(n: int, stream: nat -> real, s: State, row: int, col: int): (r: State)
    requires ValidStream(stream) && WellFormed(n, s.grid, s.verticals, s.horizontals)
    requires 0 <= row < n && 0 <= col < n
    ensures WellFormed(n, r.grid, r.verticals, r.horizontals)
    ensures Count(r.grid, false) <= Count(s.grid, false)
    decreases Count(s.grid, false), 0
  {
    if s.grid[row][col] then s
    else
      CountSetTrue(s.grid, row, col);
      ShuffledCandidates(row, col, stream, s.drawn);
      var order := Shuffled(Candidates(row, col), stream, s.drawn);
      Explore(n, stream, State(SetTrue(s.grid, row, col), s.verticals, s.horizontals, s.drawn + 4), row, col, order, 0)
  }

  /**
   * The loop of index.js:92-126 over the neighbour list `order` from entry
   * `i` on: one `Step` per entry, in order.
   */
  ghost function Explore(n: int, stream: nat -> real, s: State, row: int, col: int, order: seq<Neighbour>, i: nat): (r: State)
    requires ValidStream(stream) && WellFormed(n, s.grid, s.verticals, s.horizontals)
    requires 0 <= row < n && 0 <= col < n && i <= |order|
    requires forall k :: 0 <= k < |order| ==> order[k] in Candidates(row, col)
    ensures WellFormed(n, r.grid, r.verticals, r.horizontals)
    ensures Count(r.grid, false) <= Count(s.grid, false)
    decreases Count(s.grid, false), |order| - i + 2
  {
    if i == |order| then s
    else Explore(n, stream, Step(n, stream, s, row, col, order[i]), row, col, order, i + 1)
  }

  /**
   * One iteration of that loop, for the neighbour `nb`: one off the board or
   * already visited is skipped (index.js:98-106); otherwise it is `Descend`ed into.
   */
  ghost function Step(n: int, stream: nat -> real, s: State, row: int, col: int, nb: Neighbour): (r: State)
    requires ValidStream(stream) && WellFormed(n, s.grid, s.verticals, s.horizontals)
    requires 0 <= row < n && 0 <= col < n && nb in Candidates(row, col)
    ensures WellFormed(n, r.grid, r.verticals, r.horizontals)
    ensures Count(r.grid, false) <= Count(s.grid, false)
    decreases Count(s.grid, false), 2
  {
    if Settled(s.grid, n, Target(nb)) then s
    else Descend(n, stream, s, row, col, nb)
  }

  /** The wall to the on-board neighbour `nb` is removed and `nb` is traversed (index.js:108-125). */
  ghost function Descend(n: int, stream: nat -> real, s: State, row: int, col: int, nb: Neighbour): (r: State)
    requires ValidStream(stream) && WellFormed(n, s.grid, s.verticals, s.horizontals)
    requires 0 <= row < n && 0 <= col < n && nb in Candidates(row, col) && OnBoard(n, Target(nb))
    ensures WellFormed(n, r.grid, r.verticals, r.horizontals)
    ensures Count(r.grid, false) <= Count(s.grid, false)
    decreases Count(s.grid, false), 1
  {
    Traverse(n, stream, Opened(n, s, row, col, nb), nb.row, nb.col)
  }

  /**
   * The whole generator run of index.js:61-74 and 130, from draw number
   * `pos` of the stream on: empty grids, a start cell from the next two
   * draws, and the traversal from it.
   */
  ghost function Generate(n: nat, stream: nat -> real, pos: nat): (r: State)
    requires n >= 1 && ValidStream(stream)
    ensures WellFormed(n, r.grid, r.verticals, r.horizontals)
  {
    var startRow := RandomIndex(Draw(stream, pos), n);
    var startColumn := RandomIndex(Draw(stream, pos + 1), n);
    Traverse(n, stream, State(Filled(n, n, false), Filled(n, n - 1, false), Filled(n - 1, n, false), pos + 2),
             startRow, startColumn)
  }

  /** The shuffled neighbour list holds four candidates. */
  lemma ShuffledCandidates(row: int, col: int, stream: nat -> real, pos: nat)
    requires ValidStream(stream)
    ensures var order := Shuffled(Candidates(row, col), stream, pos);
      |order| == 4 && forall k :: 0 <= k < 4 ==> order[k] in Candidates(row, col)
  {
    var order := Shuffled(Candidates(row, col), stream, pos);
    ShuffledPermutes(Candidates(row, col), stream, pos);
    assert forall k :: 0 <= k < 4 ==> order[k] in multiset(order);
  }

  /**
   * Part-way through the neighbour loop of (row, col): the state `s` reached
   * after the first `i` entries of `order`, explored over the remaining
   * entries, gives `result`.
   */
  ghost predicate Continues(n: int, stream: nat -> real, s: State, row: int, col: int, order: seq<Neighbour>, i: nat, result: State) {
    && ValidStream(stream) && WellFormed(n, s.grid, s.verticals, s.horizontals)
    && 0 <= row < n && 0 <= col < n
    && i <= |order| && (forall k :: 0 <= k < |order| ==> order[k] in Candidates(row, col))
    && Explore(n, stream, s, row, col, order, i) == result
  }

  /** `Traverse` on an unvisited cell: mark it, shuffle its neighbours with the next four draws, explore them. */
  lemma {:induction false} TraverseStart(n: int, stream: nat -> real, s: State, row: int, col: int, s1: State, order: seq<Neighbour>)
    requires ValidStream(stream) && WellFormed(n, s.grid, s.verticals, s.horizontals)
    requires 0 <= row < n && 0 <= col < n && !s.grid[row][col]
    requires s1 == State(SetTrue(s.grid, row, col), s.verticals, s.horizontals, s.drawn + 4)
    requires order == Shuffled(Candidates(row, col), stream, s.drawn)
    ensures Continues(n, stream, s1, row, col, order, 0, Traverse(n, stream, s, row, col))
  {
    ShuffledCandidates(row, col, stream, s.drawn);
  }

  /** `Explore` takes one `Step` per entry. */
  lemma {:induction false} ExploreStep(n: int, stream: nat -> real, s: State, row: int, col: int, order: seq<Neighbour>, i: nat,
                                       result: State)
    requires Continues(n, stream, s, row, col, order, i, result)
    requires i < |order|
    ensures Continues(n, stream, Step(n, stream, s, row, col, order[i]), row, col, order, i + 1, result)
  {
  }

  /** At the end of the list the state reached is the result. */
  lemma {:induction false} ExploreDone(n: int, stream: nat -> real, s: State, row: int, col: int, order: seq<Neighbour>,
                                       result: State)
    requires Continues(n, stream, s, row, col, order, |order|, result)
    ensures s == result
  {
  }

  /** Every candidate occurs in the shuffled neighbour list. */
  lemma ShuffledCovers(row: int, col: int, stream: nat -> real, pos: nat)
    requires ValidStream(stream)
    ensures var order := Shuffled(Candidates(row, col), stream, pos);
      forall j :: 0 <= j < 4 ==> Candidates(row, col)[j] in order
  {
    var order := Shuffled(Candidates(row, col), stream, pos);
    ShuffledPermutes(Candidates(row, col), stream, pos);
    assert forall j :: 0 <= j < 4 ==> Candidates(row, col)[j] in multiset(Candidates(row, col));
  }

  /**
   * `Traverse` from (row, col), entered when every opening joins reached
   * cells or (row, col): on a visited cell it changes nothing, and on an
   * unvisited one it carries out a finished traversal from that cell.
   */
  lemma {:induction false} TraverseExplores(n: int, stream: nat -> real, s: State, row: int, col: int)
    requires ValidStream(stream) && WellFormed(n, s.grid, s.verticals, s.horizontals)
    requires 0 <= row < n && 0 <= col < n
    requires OpeningsReached(s.grid, s.verticals, s.horizontals, {Cell(row, col)})
    ensures s.grid[row][col] ==> Traverse(n, stream, s, row, col) == s
    ensures !s.grid[row][col] ==>
      var r := Traverse(n, stream, s, row, col);
      Explored(n, s.grid, s.verticals, s.horizontals, r.grid, r.verticals, r.horizontals, Cell(row, col))
    decreases Count(s.grid, false), 1
  {
    if !s.grid[row][col] {
      var order := Shuffled(Candidates(row, col), stream, s.drawn);
      var r := Traverse(n, stream, s, row, col);
      TraverseProgress(n, stream, s, row, col);
      ShuffledCovers(row, col, stream, s.drawn);
      Finished(n, s.grid, s.verticals, s.horizontals, r.grid, r.verticals, r.horizontals, Cell(row, col), order);
    }
  }

  /**
   * `Traverse` on an unvisited cell makes `Progress` over its whole shuffled
   * neighbour list.
   */
  lemma {:induction false} TraverseProgress(n: int, stream: nat -> real, s: State, row: int, col: int)
    requires ValidStream(stream) && WellFormed(n, s.grid, s.verticals, s.horizontals)
    requires 0 <= row < n && 0 <= col < n && !s.grid[row][col]
    requires OpeningsReached(s.grid, s.verticals, s.horizontals, {Cell(row, col)})
    ensures var r := Traverse(n, stream, s, row, col);
      Progress(n, s.grid, s.verticals, s.horizontals, r.grid, r.verticals, r.horizontals, Cell(row, col),
               Shuffled(Candidates(row, col), stream, s.drawn))
    decreases Count(s.grid, false), 0
  {
    var here := Cell(row, col);
    var s1 := State(SetTrue(s.grid, row, col), s.verticals, s.horizontals, s.drawn + 4);
    var order := Shuffled(Candidates(row, col), stream, s.drawn);
    CountSetTrue(s.grid, row, col);
    ShuffledCandidates(row, col, stream, s.drawn);
    Started(n, s.grid, s.verticals, s.horizontals, here);
    var r := Traverse(n, stream, s, row, col);
    assert r == Explore(n, stream, s1, row, col, order, 0);
    ExploreExplores(n, stream, s.grid, s.verticals, s.horizontals, s1, here, order, 0, [], r);
  }

  /** `Traverse` only ever sets visited flags, and leaves every opening between visited cells. */
  lemma TraverseGrows(n: int, stream: nat -> real, s: State, row: int, col: int)
    requires ValidStream(stream) && WellFormed(n, s.grid, s.verticals, s.horizontals)
    requires 0 <= row < n && 0 <= col < n
    requires OpeningsReached(s.grid, s.verticals, s.horizontals, {Cell(row, col)})
    ensures var r := Traverse(n, stream, s, row, col);
      Grows(s.grid, r.grid) && OpeningsReached(r.grid, r.verticals, r.horizontals, {})
  {
    TraverseExplores(n, stream, s, row, col);
  }

  /**
   * Exploring the neighbour list `order` of `here` from entry `i` on, after
   * the entries before `i` were handled, keeps the traversal's `Progress`
   * and handles the whole list.
   */
  lemma {:induction false} ExploreExplores(n: int, stream: nat -> real, g0: seq<seq<bool>>, v0: seq<seq<bool>>, h0: seq<seq<bool>>,
                                           s: State, here: Cell, order: seq<Neighbour>, i: nat, done: seq<Neighbour>, r: State)
    requires ValidStream(stream) && OnBoard(n, here) && i <= |order| && done == order[..i]
    requires forall k :: 0 <= k < |order| ==> order[k] in Candidates(here.row, here.col)
    requires Progress(n, g0, v0, h0, s.grid, s.verticals, s.horizontals, here, done)
    requires r == Explore(n, stream, s, here.row, here.col, order, i)
    ensures Progress(n, g0, v0, h0, r.grid, r.verticals, r.horizontals, here, order)
    decreases Count(s.grid, false), |order| - i + 2
  {
    if i == |order| {
      assert order[..i] == order;
    } else {
      var s' := Step(n, stream, s, here.row, here.col, order[i]);
      StepExplores(n, stream, g0, v0, h0, s, here, done, order[i]);
      assert done + [order[i]] == order[..i + 1];
      ExploreExplores(n, stream, g0, v0, h0, s', here, order, i + 1, done + [order[i]], r);
    }
  }

  /** One `Step` of the neighbour loop of `here` keeps its `Progress` and handles `nb`. */
  lemma {:induction false} StepExplores(n: int, stream: nat -> real, g0: seq<seq<bool>>, v0: seq<seq<bool>>, h0: seq<seq<bool>>,
                                        s: State, here: Cell, done: seq<Neighbour>, nb: Neighbour)
    requires ValidStream(stream) && OnBoard(n, here) && nb in Candidates(here.row, here.col)
    requires Progress(n, g0, v0, h0, s.grid, s.verticals, s.horizontals, here, done)
    ensures var r := Step(n, stream, s, here.row, here.col, nb);
      Progress(n, g0, v0, h0, r.grid, r.verticals, r.horizontals, here, done + [nb])
    decreases Count(s.grid, false), 2
  {
    if Settled(s.grid, n, Target(nb)) {
      Skipped(n, g0, v0, h0, s.grid, s.verticals, s.horizontals, here, done, nb);
    } else {
      var s1 := Opened(n, s, here.row, here.col, nb);
      OpenedOne(n, s.grid, s.verticals, s.horizontals, s1.verticals, s1.horizontals, here, Target(nb));
      TraverseExplores(n, stream, s1, nb.row, nb.col);
      var s2 := Traverse(n, stream, s1, nb.row, nb.col);
      assert Step(n, stream, s, here.row, here.col, nb) == s2;
      ChildExplored(n, g0, v0, h0, s.grid, s.verticals, s.horizontals, s1.verticals, s1.horizontals,
                    s2.grid, s2.verticals, s2.horizontals, here, done, nb);
    }
  }

  /** The generator's state: the visited flags and the two opening grids. */
  class Maze {
    const cells: nat
    const random: Random
    const startRow: nat
    const startColumn: nat
    var grid: seq<seq<bool>>
    var verticals: seq<seq<bool>>
    var horizontals: seq<seq<bool>>

    /** The invariant, except that openings may lead into the `pending` cells. */
    ghost predicate ValidExcept(pending: set<Cell>)
      reads this
    {
      WellFormed(cells, grid, verticals, horizontals)
      && OpeningsReached(grid, verticals, horizontals, pending)
      && random.Valid()
    }

    ghost predicate Valid()
      reads this
    {
      ValidExcept({})
    }

    /** The current state as a value. */
    ghost function Snapshot(): State
      reads this, random
    {
      State(grid, verticals, horizontals, random.drawn)
    }

    /** The number of removed walls. */
    function OpenCount(): nat
      reads this
    {
      Count(verticals, true) + Count(horizontals, true)
    }

    /**
     * The generator run of index.js: fresh grids (index.js:61-71), a random
     * start cell (index.js:73-74) and `traverseCell(startRow, startColumn)`
     * (index.js:130). The removed walls form a spanning tree of the board:
     * every cell is visited, `cells * cells - 1` walls are removed, and any
     * two cells are joined by a walk through the openings.
     */
    constructor (cells: nat, random: Random)
      requires cells >= 1
      requires random.Valid()
      modifies random
      ensures this.cells == cells && this.random == random
      ensures Valid()
      ensures startRow == RandomIndex(Draw(random.stream, old(random.drawn)), cells)
      ensures startColumn == RandomIndex(Draw(random.stream, old(random.drawn) + 1), cells)
      ensures startRow < cells && startColumn < cells
      ensures Snapshot() == Generate(cells, random.stream, old(random.drawn))
      ensures forall r, c :: 0 <= r < cells && 0 <= c < cells ==> grid[r][c]
      ensures OpenCount() == cells * cells - 1
      ensures forall p, q :: OnBoard(cells, p) && OnBoard(cells, q) ==> Connected(verticals, horizontals, p, q)
    {
      this.cells := cells;
      this.random := random;
      grid := Filled(cells, cells, false);
      verticals := Filled(cells, cells - 1, false);
      horizontals := Filled(cells - 1, cells, false);
      var x := random.Next();
      startRow := RandomIndex(x, cells);
      var y := random.Next();
      startColumn := RandomIndex(y, cells);
      new;
      CountNone(verticals, true);
      CountNone(horizontals, true);
      CountAll(grid, false, cells);
      ghost var g0, v0, h0 := grid, verticals, horizontals;
      assert !grid[startRow][startColumn];
      assert Snapshot() == State(Filled(cells, cells, false), Filled(cells, cells - 1, false),
                                 Filled(cells - 1, cells, false), old(random.drawn) + 2);
      TraverseCell(startRow, startColumn);
      SpanningTree(cells, g0, v0, h0, grid, verticals, horizontals, Cell(startRow, startColumn));
    }

    /**
     * The neighbour list of (row, column) in random order (index.js:84-89):
     * the four candidates, permuted by `shuffle`.
     */
    method ShuffledNeighbours(row: int, column: int) returns (neighbours: array<Neighbour>)
      requires random.Valid()
      modifies random
      ensures fresh(neighbours) && neighbours.Length == 4
      ensures neighbours[..] == Shuffled(Candidates(row, column), random.stream, old(random.drawn))
      ensures random.drawn == old(random.drawn) + 4
      ensures forall k :: 0 <= k < 4 ==> neighbours[k] in Candidates(row, column)
      ensures forall j :: 0 <= j < 4 ==> Candidates(row, column)[j] in neighbours[..]
    {
      var candidates := Candidates(row, column);
      neighbours := new Neighbour[] [candidates[0], candidates[1], candidates[2], candidates[3]];
      assert neighbours[..] == candidates;
      Shuffle(neighbours, random);
      forall k | 0 <= k < 4
        ensures neighbours[k] in Candidates(row, column)
      {
        assert neighbours[k] in multiset(neighbours[..]);
      }
      forall j | 0 <= j < 4
        ensures Candidates(row, column)[j] in neighbours[..]
      {
        assert Candidates(row, column)[j] in multiset(Candidates(row, column));
      }
    }

    /**
     * Removes the wall between (row, column) and its unvisited neighbour
     * `next` (index.js:108-122): a `left` or `right` neighbour opens a slot
     * of `verticals`, an `up` or `down` one a slot of `horizontals`.
     */
    method RemoveWall(row: int, column: int, next: Neighbour)
      requires WellFormed(cells, grid, verticals, horizontals) && OpeningsReached(grid, verticals, horizontals, {})
      requires 0 <= row < cells && 0 <= column < cells && grid[row][column]
      requires next in Candidates(row, column) && OnBoard(cells, Target(next)) && !Visited(grid, Target(next))
      modifies this
      ensures grid == old(grid)
      ensures WellFormed(cells, grid, verticals, horizontals)
      ensures OpeningsReached(grid, verticals, horizontals, {Target(next)})
      ensures Grows(old(verticals), verticals) && Grows(old(horizontals), horizontals)
      ensures OpenCount() == old(OpenCount()) + 1
      ensures Linked(verticals, horizontals, Cell(row, column), Target(next))
      ensures Snapshot() == Opened(cells, old(Snapshot()), row, column, next)
    {
      if next.direction == Left {
        verticals := SetTrue(verticals, row, column - 1);
      } else if next.direction == Right {
        verticals := SetTrue(verticals, row, column);
      }
      if next.direction == Up {
        horizontals := SetTrue(horizontals, row - 1, column);
      } else if next.direction == Down {
        horizontals := SetTrue(horizontals, row, column);
      }
      OpenedOne(cells, grid, old(verticals), old(horizontals), verticals, horizontals, Cell(row, column), Target(next));
    }

    /**
     * One pass of the loop of index.js:94-125 for the neighbour entry `next`
     * of the visited cell (row, column): an entry off the board or already
     * visited is skipped; otherwise the wall to it is removed and it is
     * traversed.
     */
    method VisitNeighbour(row: int, column: int, next: Neighbour)
      requires Valid() && 0 <= row < cells && 0 <= column < cells && grid[row][column]
      requires next in Candidates(row, column)
      modifies this, random
      decreases Count(grid, false), 1
      ensures Valid() && grid[row][column]
      ensures Count(grid, false) <= old(Count(grid, false))
      ensures Snapshot() == Step(cells, random.stream, old(Snapshot()), row, column, next)
    {
      if next.row < 0 || next.row >= cells || next.col < 0 || next.col >= cells || grid[next.row][next.col] {
        return;
      }
      RemoveWall(row, column, next);
      ghost var s1 := Snapshot();
      TraverseCell(next.row, next.col);
      TraverseGrows(cells, random.stream, s1, next.row, next.col);
    }

    /**
     * `traverseCell(row, column)` (index.js:76-128). On a visited cell it
     * changes nothing. Otherwise it visits the cell and, in shuffled order,
     * removes the wall to each neighbour that is on the board and still
     * unvisited, then traverses that neighbour.
     */
    method TraverseCell(row: int, column: int)
      requires ValidExcept({Cell(row, column)})
      requires 0 <= row < cells && 0 <= column < cells
      modifies this, random
      decreases Count(grid, false), 0
      ensures Valid()
      ensures Snapshot() == Traverse(cells, random.stream, old(Snapshot()), row, column)
      ensures grid[row][column]
      ensures old(grid[row][column]) ==>
        grid == old(grid) && verticals == old(verticals) && horizontals == old(horizontals)
        && random.drawn == old(random.drawn)
      ensures !old(grid[row][column]) ==>
        Explored(cells, old(grid), old(verticals), old(horizontals), grid, verticals, horizontals, Cell(row, column))
    {
      if grid[row][column] {
        return;
      }
      ghost var s0 := Snapshot();
      grid := SetTrue(grid, row, column);
      CountSetTrue(old(grid), row, column);
      var neighbours := ShuffledNeighbours(row, column);
      ghost var order := neighbours[..];
      ghost var result := Traverse(cells, random.stream, s0, row, column);
      TraverseStart(cells, random.stream, s0, row, column, Snapshot(), order);

      for i := 0 to neighbours.Length
        modifies this, random
        invariant Continues(cells, random.stream, Snapshot(), row, column, order, i, result)
        invariant OpeningsReached(grid, verticals, horizontals, {}) && grid[row][column]
        invariant Count(grid, false) < Count(old(grid), false)
      {
        ExploreStep(cells, random.stream, Snapshot(), row, column, order, i, result);
        VisitNeighbour(row, column, neighbours[i]);
      }
      ExploreDone(cells, random.stream, Snapshot(), row, column, order, result);
      TraverseExplores(cells, random.stream, s0, row, column);
    }
  }

  /**
   * A traversal that starts on a board with no visited cell and no opening
   * and runs to completion carves a spanning tree: every cell is visited,
   * `n * n - 1` walls are removed, and every two cells are joined by a walk.
   */
  lemma SpanningTree(n: int, g0: seq<seq<bool>>, v0: seq<seq<bool>>, h0: seq<seq<bool>>,
                     g: seq<seq<bool>>, v: seq<seq<bool>>, h: seq<seq<bool>>, start: Cell)
    requires OnBoard(n, start)
    requires forall r, c :: 0 <= r < |g0| && 0 <= c < |g0[r]| ==> !g0[r][c]
    requires Count(g0, false) == n * n && Count(v0, true) == 0 && Count(h0, true) == 0
    requires Explored(n, g0, v0, h0, g, v, h, start)
    ensures forall r, c :: 0 <= r < n && 0 <= c < n ==> g[r][c]
    ensures Count(v, true) + Count(h, true) == n * n - 1
    ensures forall p, q :: OnBoard(n, p) && OnBoard(n, q) ==> Connected(v, h, p, q)
  {
    forall p: Cell | Visited(g, p)
      ensures NeighboursSettled(g, n, p) && Connected(v, h, start, p)
    {
      assert NewlyVisited(g0, g, p);
    }
    ClosedBoardIsFull(g, n, start);
    CountNone(g, false);
    forall p, q | OnBoard(n, p) && OnBoard(n, q)
      ensures Connected(v, h, p, q)
    {
      assert Visited(g, p) && IsSet(g, q.row, q.col);
      ConnectedSymmetric(v, h, start, p);
      ConnectedTransitive(v, h, p, start, q);
    }
  }

  /**
   * Whatever the draws, a whole generator run carves a spanning tree of the
   * board: every cell visited, `n * n - 1` walls removed, every two cells
   * joined by a walk.
   */
  lemma GenerateSpans(n: nat, stream: nat -> real, pos: nat)
    requires n >= 1 && ValidStream(stream)
    ensures var r := Generate(n, stream, pos);
      && (forall row, col :: 0 <= row < n && 0 <= col < n ==> r.grid[row][col])
      && Count(r.verticals, true) + Count(r.horizontals, true) == n * n - 1
      && (forall p, q :: OnBoard(n, p) && OnBoard(n, q) ==> Connected(r.verticals, r.horizontals, p, q))
  {
    var s := State(Filled(n, n, false), Filled(n, n - 1, false), Filled(n - 1, n, false), pos + 2);
    var startRow := RandomIndex(Draw(stream, pos), n);
    var startColumn := RandomIndex(Draw(stream, pos + 1), n);
    CountNone(s.verticals, true);
    CountNone(s.horizontals, true);
    CountAll(s.grid, false, n);
    TraverseExplores(n, stream, s, startRow, startColumn);
    var r := Traverse(n, stream, s, startRow, startColumn);
    assert r == Generate(n, stream, pos);
    SpanningTree(n, s.grid, s.verticals, s.horizontals, r.grid, r.verticals, r.horizontals, Cell(startRow, startColumn));
  }

  /**
   * Marking the unvisited cell `here` visited (index.js:81) starts a
   * traversal: `here` is the one newly visited cell, reached from itself,
   * and no neighbour has been handled yet.
   */
  lemma Started(n: int, g: seq<seq<bool>>, v: seq<seq<bool>>, h: seq<seq<bool>>, here: Cell)
    requires WellFormed(n, g, v, h) && OpeningsReached(g, v, h, {here})
    requires OnBoard(n, here) && !Visited(g, here)
    ensures Progress(n, g, v, h, SetTrue(g, here.row, here.col), v, h, here, [])
  {
    var g' := SetTrue(g, here.row, here.col);
    CountSetTrue(g, here.row, here.col);
    ConnectedRefl(v, h, here);
    forall p: Cell | NewlyVisited(g, g', p)
      ensures Connected(v, h, here, p)
    {
      assert p == here;
    }
  }

  /** A neighbour that is off the board or already visited is skipped (index.js:98-106). */
  lemma Skipped(n: int, g0: seq<seq<bool>>, v0: seq<seq<bool>>, h0: seq<seq<bool>>,
                g: seq<seq<bool>>, v: seq<seq<bool>>, h: seq<seq<bool>>, here: Cell, done: seq<Neighbour>, nb: Neighbour)
    requires Progress(n, g0, v0, h0, g, v, h, here, done)
    requires Settled(g, n, Target(nb))
    ensures Progress(n, g0, v0, h0, g, v, h, here, done + [nb])
  {
  }

  /**
   * After the wall to the unvisited neighbour `nb` was removed (grids v0, h0
   * to v1, h1) and `nb` was traversed (grids g1, v1, h1 to g, v, h), the
   * traversal from `here` has handled `nb` as well.
   */
  lemma ChildExplored(n: int, g0: seq<seq<bool>>, v0: seq<seq<bool>>, h0: seq<seq<bool>>,
                      g1: seq<seq<bool>>, vA: seq<seq<bool>>, hA: seq<seq<bool>>, v1: seq<seq<bool>>, h1: seq<seq<bool>>,
                      g: seq<seq<bool>>, v: seq<seq<bool>>, h: seq<seq<bool>>,
                      here: Cell, done: seq<Neighbour>, nb: Neighbour)
    requires Progress(n, g0, v0, h0, g1, vA, hA, here, done)
    requires !Visited(g1, Target(nb))
    requires Grows(vA, v1) && Grows(hA, h1) && Linked(v1, h1, here, Target(nb))
    requires Count(v1, true) + Count(h1, true) == Count(vA, true) + Count(hA, true) + 1
    requires Explored(n, g1, v1, h1, g, v, h, Target(nb))
    ensures Progress(n, g0, v0, h0, g, v, h, here, done + [nb])
  {
    ChildReached(g0, g1, vA, hA, v1, h1, g, v, h, here, Target(nb));
    forall p: Cell | NewlyVisited(g0, g, p) && p != here
      ensures NeighboursSettled(g, n, p)
    {
      if Visited(g1, p) {
        assert NewlyVisited(g0, g1, p);
        SettledGrows(g1, g, n, p);
      } else {
        assert NewlyVisited(g1, g, p);
      }
    }
    forall k | 0 <= k < |done| + 1
      ensures Settled(g, n, Target((done + [nb])[k]))
    {
      if k < |done| {
        assert Settled(g1, n, Target(done[k]));
      }
    }
  }

  /**
   * The cells newly visited before the child traversal are reached from
   * `here` as before; the child's cells are reached through the opening to
   * `there` and then the child's walks.
   */
  lemma ChildReached(g0: seq<seq<bool>>, g1: seq<seq<bool>>, vA: seq<seq<bool>>, hA: seq<seq<bool>>,
                     v1: seq<seq<bool>>, h1: seq<seq<bool>>, g: seq<seq<bool>>, v: seq<seq<bool>>, h: seq<seq<bool>>,
                     here: Cell, there: Cell)
    requires forall p: Cell :: NewlyVisited(g0, g1, p) ==> Connected(vA, hA, here, p)
    requires forall p: Cell :: NewlyVisited(g1, g, p) ==> Connected(v, h, there, p)
    requires Grows(vA, v1) && Grows(hA, h1) && Grows(v1, v) && Grows(h1, h)
    requires Linked(v1, h1, here, there)
    ensures forall p: Cell :: NewlyVisited(g0, g, p) ==> Connected(v, h, here, p)
  {
    assert Linked(v, h, here, there);
    forall p: Cell | NewlyVisited(g0, g, p)
      ensures Connected(v, h, here, p)
    {
      if Visited(g1, p) {
        assert NewlyVisited(g0, g1, p);
        ConnectedGrows(vA, hA, v, h, here, p);
      } else {
        assert NewlyVisited(g1, g, p);
        ConnectedStep(v, h, here, there, p);
      }
    }
  }

  /** Settled neighbours stay settled while the visited flags grow. */
  lemma SettledGrows(g: seq<seq<bool>>, g': seq<seq<bool>>, n: int, p: Cell)
    requires Grows(g, g') && NeighboursSettled(g, n, p)
    ensures NeighboursSettled(g', n, p)
  {
  }

  /**
   * Once the loop has handled the shuffled neighbour list, which holds all
   * four candidates, every neighbour of `here` is settled too.
   */
  lemma Finished(n: int, g0: seq<seq<bool>>, v0: seq<seq<bool>>, h0: seq<seq<bool>>,
                 g: seq<seq<bool>>, v: seq<seq<bool>>, h: seq<seq<bool>>, here: Cell, order: seq<Neighbour>)
    requires Progress(n, g0, v0, h0, g, v, h, here, order)
    requires forall j :: 0 <= j < 4 ==> Candidates(here.row, here.col)[j] in order
    ensures Explored(n, g0, v0, h0, g, v, h, here)
  {
    var c := Candidates(here.row, here.col);
    forall j | 0 <= j < 4
      ensures Settled(g, n, Target(c[j]))
    {
      assert c[j] in order;
      var k :| 0 <= k < |order| && order[k] == c[j];
      assert Settled(g, n, Target(order[k]));
    }
    assert Settled(g, n, Target(c[0])) && Settled(g, n, Target(c[1]));
    assert Settled(g, n, Target(c[2])) && Settled(g, n, Target(c[3]));
  }

  /**
   * Removing the wall from a visited cell `here` to an unvisited neighbour
   * `there` adds exactly one opening (the slot was closed, because openings
   * only join reached cells), links the two cells, and keeps every opening
   * between reached cells once `there` counts as pending.
   */
  lemma OpenedOne(n: int, g: seq<seq<bool>>, v: seq<seq<bool>>, h: seq<seq<bool>>,
                  v': seq<seq<bool>>, h': seq<seq<bool>>, here: Cell, there: Cell)
    requires WellFormed(n, g, v, h) && OpeningsReached(g, v, h, {})
    requires OnBoard(n, here) && OnBoard(n, there)
    requires Visited(g, here) && !Visited(g, there)
    requires
      || (there == Cell(here.row, here.col - 1) && v' == SetTrue(v, here.row, here.col - 1) && h' == h)
      || (there == Cell(here.row, here.col + 1) && v' == SetTrue(v, here.row, here.col) && h' == h)
      || (there == Cell(here.row - 1, here.col) && h' == SetTrue(h, here.row - 1, here.col) && v' == v)
      || (there == Cell(here.row + 1, here.col) && h' == SetTrue(h, here.row, here.col) && v' == v)
    ensures WellFormed(n, g, v', h') && OpeningsReached(g, v', h', {there})
    ensures Grows(v, v') && Grows(h, h')
    ensures Count(v', true) + Count(h', true) == Count(v, true) + Count(h, true) + 1
    ensures Linked(v', h', here, there)
  {
    if there == Cell(here.row, here.col - 1) {
      assert IsSet(v, there.row, there.col) ==> Reached(g, there, {});
      OpenedSlot(n, n - 1, v, there.row, there.col);
    } else if there == Cell(here.row, here.col + 1) {
      assert IsSet(v, here.row, here.col) ==> Reached(g, there, {});
      OpenedSlot(n, n - 1, v, here.row, here.col);
    } else if there == Cell(here.row - 1, here.col) {
      assert IsSet(h, there.row, there.col) ==> Reached(g, there, {});
      OpenedSlot(n - 1, n, h, there.row, there.col);
    } else {
      assert IsSet(h, here.row, here.col) ==> Reached(g, there, {});
      OpenedSlot(n - 1, n, h, here.row, here.col);
    }
    OpeningsStillReached(g, v, h, {there});
  }

  /** Openings between reached cells stay so when more cells count as pending. */
  lemma OpeningsStillReached(g: seq<seq<bool>>, v: seq<seq<bool>>, h: seq<seq<bool>>, pending: set<Cell>)
    requires OpeningsReached(g, v, h, {})
    ensures OpeningsReached(g, v, h, pending)
  {
  }

  /** Setting the closed slot (r, c) of a `rows` by `cols` opening grid adds one opening. */
  lemma OpenedSlot(rows: int, cols: int, s: seq<seq<bool>>, r: int, c: int)
    requires Shape(s, rows, cols) && 0 <= r < rows && 0 <= c < cols
    requires !s[r][c]
    ensures Shape(SetTrue(s, r, c), rows, cols)
    ensures Grows(s, SetTrue(s, r, c))
    ensures Count(SetTrue(s, r, c), true) == Count(s, true) + 1
  {
    CountSetTrue(s, r, c);
  }

  /** A visited cell whose visited cells all have settled neighbours makes the whole board visited. */
  lemma ClosedBoardIsFull(g: seq<seq<bool>>, n: int, start: Cell)
    requires n >= 1 && Shape(g, n, n)
    requires IsSet(g, start.row, start.col)
    requires forall p: Cell {:trigger NeighboursSettled(g, n, p)} :: Visited(g, p) ==> NeighboursSettled(g, n, p)
    ensures forall r, c :: 0 <= r < n && 0 <= c < n ==> g[r][c]
  {
    WalkLeft(g, n, start.row, start.col);
    WalkUp(g, n, start.row);
    forall r, c | 0 <= r < n && 0 <= c < n
      ensures g[r][c]
    {
      WalkDown(g, n, r);
      WalkRight(g, n, r, c);
    }
  }

  lemma {:induction false} WalkLeft(g: seq<seq<bool>>, n: int, r: int, c: int)
    requires n >= 1 && Shape(g, n, n)
    requires forall p: Cell {:trigger NeighboursSettled(g, n, p)} :: Visited(g, p) ==> NeighboursSettled(g, n, p)
    requires IsSet(g, r, c)
    ensures IsSet(g, r, 0)
    decreases c
  {
    if c > 0 {
      assert NeighboursSettled(g, n, Cell(r, c));
      WalkLeft(g, n, r, c - 1);
    }
  }

  lemma {:induction false} WalkUp(g: seq<seq<bool>>, n: int, r: int)
    requires n >= 1 && Shape(g, n, n)
    requires forall p: Cell {:trigger NeighboursSettled(g, n, p)} :: Visited(g, p) ==> NeighboursSettled(g, n, p)
    requires IsSet(g, r, 0)
    ensures IsSet(g, 0, 0)
    decreases r
  {
    if r > 0 {
      assert NeighboursSettled(g, n, Cell(r, 0));
      WalkUp(g, n, r - 1);
    }
  }

  lemma {:induction false} WalkDown(g: seq<seq<bool>>, n: int, r: int)
    requires n >= 1 && Shape(g, n, n)
    requires forall p: Cell {:trigger NeighboursSettled(g, n, p)} :: Visited(g, p) ==> NeighboursSettled(g, n, p)
    requires IsSet(g, 0, 0) && 0 <= r < n
    ensures IsSet(g, r, 0)
  {
    if r > 0 {
      WalkDown(g, n, r - 1);
      assert NeighboursSettled(g, n, Cell(r - 1, 0));
    }
  }

  lemma {:induction false} WalkRight(g: seq<seq<bool>>, n: int, r: int, c: int)
    requires n >= 1 && Shape(g, n, n)
    requires forall p: Cell {:trigger NeighboursSettled(g, n, p)} :: Visited(g, p) ==> NeighboursSettled(g, n, p)
    requires IsSet(g, r, 0) && 0 <= c < n
    ensures IsSet(g, r, c)
  {
    if c > 0 {
      WalkRight(g, n, r, c - 1);
      assert NeighboursSettled(g, n, Cell(r, c - 1));
    }
  }
}
