/**
 * The maze as a graph: cells are nodes, and a true entry of `verticals`
 * or `horizontals` is an edge (an opening) between two adjacent cells.
 */
module Passages {
  import opened Grids

  /** A cell, addressed by row and column. */
  datatype Cell = Cell(row: int, col: int)

  /** `p` lies on the `n` by `n` board. */
  predicate OnBoard(n: int, p: Cell) {
    0 <= p.row < n && 0 <= p.col < n
  }

  /**
   * The wall between `p` and `q` is removed. `verticals[r][c]` opens the wall
   * between (r, c) and (r, c + 1); `horizontals[r][c]` the one between (r, c)
   * and (r + 1, c).
   */
  ghost predicate Linked(v: seq<seq<bool>>, h: seq<seq<bool>>, p: Cell, q: Cell) {
    || (p.row == q.row && q.col == p.col + 1 && IsSet(v, p.row, p.col))
    || (p.row == q.row && p.col == q.col + 1 && IsSet(v, q.row, q.col))
    || (p.col == q.col && q.row == p.row + 1 && IsSet(h, p.row, p.col))
    || (p.col == q.col && p.row == q.row + 1 && IsSet(h, q.row, q.col))
  }

  /** A walk through the maze: consecutive cells are linked by an opening. */
  ghost predicate IsPath(v: seq<seq<bool>>, h: seq<seq<bool>>, path: seq<Cell>) {
    |path| >= 1 && forall i :: 0 <= i < |path| - 1 ==> Linked(v, h, path[i], path[i + 1])
  }

  /** Some walk through the maze leads from `p` to `q`. */
  ghost predicate Connected(v: seq<seq<bool>>, h: seq<seq<bool>>, p: Cell, q: Cell) {
    exists path :: IsPath(v, h, path) && path[0] == p && path[|path| - 1] == q
  }

  /** Every cell reaches itself. */
  lemma ConnectedRefl(v: seq<seq<bool>>, h: seq<seq<bool>>, p: Cell)
    ensures Connected(v, h, p, p)
  {
    assert IsPath(v, h, [p]);
  }

  /** Openings are never closed again, so walks survive while the grids grow. */
  lemma ConnectedGrows(v: seq<seq<bool>>, h: seq<seq<bool>>, v': seq<seq<bool>>, h': seq<seq<bool>>, p: Cell, q: Cell)
    requires Grows(v, v') && Grows(h, h')
    requires Connected(v, h, p, q)
    ensures Connected(v', h', p, q)
  {
    var path :| IsPath(v, h, path) && path[0] == p && path[|path| - 1] == q;
    forall i | 0 <= i < |path| - 1
      ensures Linked(v', h', path[i], path[i + 1])
    {
      assert Linked(v, h, path[i], path[i + 1]);
    }
    assert IsPath(v', h', path);
  }

  /** A step through an opening followed by a walk is a walk. */
  lemma ConnectedStep(v: seq<seq<bool>>, h: seq<seq<bool>>, p: Cell, q: Cell, x: Cell)
    requires Linked(v, h, p, q) && Connected(v, h, q, x)
    ensures Connected(v, h, p, x)
  {
    var path :| IsPath(v, h, path) && path[0] == q && path[|path| - 1] == x;
    var walk := [p] + path;
    forall i | 0 <= i < |walk| - 1
      ensures Linked(v, h, walk[i], walk[i + 1])
    {
      if i > 0 {
        assert walk[i] == path[i - 1] && walk[i + 1] == path[i];
      }
    }
    assert IsPath(v, h, walk);
  }

  /** Walks can be taken backwards: openings join cells in both directions. */
  lemma ConnectedSymmetric(v: seq<seq<bool>>, h: seq<seq<bool>>, p: Cell, q: Cell)
    requires Connected(v, h, p, q)
    ensures Connected(v, h, q, p)
  {
    var path :| IsPath(v, h, path) && path[0] == p && path[|path| - 1] == q;
    var n := |path|;
    var back := seq(n, i requires 0 <= i < n => path[n - 1 - i]);
    forall i | 0 <= i < n - 1
      ensures Linked(v, h, back[i], back[i + 1])
    {
      assert Linked(v, h, path[n - 2 - i], path[n - 1 - i]);
    }
    assert IsPath(v, h, back);
  }

  /** Two walks that meet make one walk. */
  lemma ConnectedTransitive(v: seq<seq<bool>>, h: seq<seq<bool>>, p: Cell, q: Cell, x: Cell)
    requires Connected(v, h, p, q) && Connected(v, h, q, x)
    ensures Connected(v, h, p, x)
  {
    var first :| IsPath(v, h, first) && first[0] == p && first[|first| - 1] == q;
    var second :| IsPath(v, h, second) && second[0] == q && second[|second| - 1] == x;
    var walk := first + second[1..];
    forall i | 0 <= i < |walk| - 1
      ensures Linked(v, h, walk[i], walk[i + 1])
    {
      if i < |first| - 1 {
        assert walk[i] == first[i] && walk[i + 1] == first[i + 1];
      } else {
        var j := i - |first| + 1;
        assert walk[i] == second[j] && walk[i + 1] == second[j + 1];
      }
    }
    assert IsPath(v, h, walk);
  }
}
