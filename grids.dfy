/**
 * Boolean grids stored as rows of entries, as index.js stores `grid`,
 * `verticals` and `horizontals` (arrays of arrays of booleans).
 */
module Grids {

  /** `g` has `rows` rows of `cols` entries each. */
  ghost predicate Shape(g: seq<seq<bool>>, rows: int, cols: int) {
    |g| == rows && forall r :: 0 <= r < |g| ==> |g[r]| == cols
  }

  /** A grid of `rows` rows of `cols` entries, all equal to `b` (`Array(rows).fill(null).map(() => Array(cols).fill(b))`). */
  function Filled(rows: nat, cols: nat, b: bool): (g: seq<seq<bool>>)
    ensures Shape(g, rows, cols)
    ensures forall r, c :: 0 <= r < rows && 0 <= c < cols ==> g[r][c] == b
  {
    seq(rows, _ => seq(cols, _ => b))
  }

  /** Entry (r, c) exists and is true. */
  predicate IsSet(g: seq<seq<bool>>, r: int, c: int) {
    0 <= r < |g| && 0 <= c < |g[r]| && g[r][c]
  }

  /** The grid after `g[r][c] = true`. */
  function SetTrue(g: seq<seq<bool>>, r: int, c: int): (g': seq<seq<bool>>)
    requires 0 <= r < |g| && 0 <= c < |g[r]|
    ensures |g'| == |g| && forall i :: 0 <= i < |g| ==> |g'[i]| == |g[i]|
    ensures forall i, j :: IsSet(g', i, j) <==> IsSet(g, i, j) || (i == r && j == c)
  {
    g[r := g[r][c := true]]
  }

  /** Every true entry of `a` is still true in `b`, which has the same shape. */
  ghost predicate Grows(a: seq<seq<bool>>, b: seq<seq<bool>>) {
    && |a| == |b|
    && (forall r :: 0 <= r < |a| ==> |a[r]| == |b[r]|)
    && (forall r, c :: IsSet(a, r, c) ==> IsSet(b, r, c))
  }

  /** How many entries of the row `s` equal `b`. */
  function CountRow(s: seq<bool>, b: bool): (n: nat)
    ensures n <= |s|
  {
    if s == [] then 0 else (if s[0] == b then 1 else 0) + CountRow(s[1..], b)
  }

  /** How many entries of the grid `g` equal `b`. */
  function Count(g: seq<seq<bool>>, b: bool): nat
  {
    if g == [] then 0 else CountRow(g[0], b) + Count(g[1..], b)
  }

  /** Setting a false entry of a row to true moves one entry from the false count to the true count. */
  lemma {:induction false} CountRowSetTrue(s: seq<bool>, c: nat)
    requires c < |s| && !s[c]
    ensures CountRow(s[c := true], true) == CountRow(s, true) + 1
    ensures CountRow(s[c := true], false) == CountRow(s, false) - 1
  {
    if c > 0 {
      assert s[c := true][1..] == s[1..][c - 1 := true];
      CountRowSetTrue(s[1..], c - 1);
    } else {
      assert s[c := true][1..] == s[1..];
    }
  }

  /** Setting a false entry of a grid to true moves one entry from the false count to the true count. */
  lemma {:induction false} CountSetTrue(g: seq<seq<bool>>, r: nat, c: nat)
    requires r < |g| && c < |g[r]| && !g[r][c]
    ensures Count(SetTrue(g, r, c), true) == Count(g, true) + 1
    ensures Count(SetTrue(g, r, c), false) == Count(g, false) - 1
  {
    if r > 0 {
      assert SetTrue(g, r, c)[1..] == SetTrue(g[1..], r - 1, c);
      CountSetTrue(g[1..], r - 1, c);
    } else {
      assert SetTrue(g, r, c)[1..] == g[1..];
      CountRowSetTrue(g[0], c);
    }
  }

  /** Every entry of a row is either true or false. */
  lemma {:induction false} CountRowSplit(s: seq<bool>)
    ensures CountRow(s, true) + CountRow(s, false) == |s|
  {
    if s != [] {
      CountRowSplit(s[1..]);
    }
  }

  /** Every entry of a `rows` by `cols` grid is either true or false. */
  lemma {:induction false} CountSplit(g: seq<seq<bool>>, cols: nat)
    requires Shape(g, |g|, cols)
    ensures Count(g, true) + Count(g, false) == |g| * cols
  {
    if g != [] {
      CountRowSplit(g[0]);
      CountSplit(g[1..], cols);
    }
  }

  /** A row whose entries all differ from `b` has none equal to `b`. */
  lemma {:induction false} CountRowNone(s: seq<bool>, b: bool)
    requires forall c :: 0 <= c < |s| ==> s[c] != b
    ensures CountRow(s, b) == 0
  {
    if s != [] {
      CountRowNone(s[1..], b);
    }
  }

  /** A grid whose entries all differ from `b` has none equal to `b`. */
  lemma {:induction false} CountNone(g: seq<seq<bool>>, b: bool)
    requires forall r, c :: 0 <= r < |g| && 0 <= c < |g[r]| ==> g[r][c] != b
    ensures Count(g, b) == 0
  {
    if g != [] {
      CountRowNone(g[0], b);
      CountNone(g[1..], b);
    }
  }

  /** A `rows` by `cols` grid whose entries all equal `b` has `rows * cols` of them. */
  lemma CountAll(g: seq<seq<bool>>, b: bool, cols: nat)
    requires Shape(g, |g|, cols)
    requires forall r, c :: 0 <= r < |g| && 0 <= c < |g[r]| ==> g[r][c] == b
    ensures Count(g, b) == |g| * cols
  {
    CountSplit(g, cols);
    CountNone(g, !b);
  }
}
