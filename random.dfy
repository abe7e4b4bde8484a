/** The source of randomness the maze generator draws from (`Math.random` in index.js). */
module RandomSource {

  /** Every value of the stream lies in [0, 1), as `Math.random` promises. */
  ghost predicate ValidStream(stream: nat -> real) {
    forall i: nat :: 0.0 <= stream(i) < 1.0
  }

  /**
   * Draw number `i` of a valid stream. Naming it gives every use the range
   * [0, 1) directly, without going through the quantifier of `ValidStream`.
   */
  function Draw(stream: nat -> real, i: nat): (x: real)
    requires ValidStream(stream)
    ensures 0.0 <= x < 1.0
  {
    stream(i)
  }

  /**
   * The product `x * n`, written as `n` additions of `x` so that the
   * solver only meets it as linear arithmetic (`ScaledIsProduct` shows it
   * is the product).
   */
  function Scaled(x: real, n: nat): (y: real)
    requires 0.0 <= x < 1.0
    ensures 0.0 <= y
    ensures n > 0 ==> y < n as real
  {
    if n == 0 then 0.0 else Scaled(x, n - 1) + x
  }

  lemma {:induction false} ScaledIsProduct(x: real, n: nat)
    requires 0.0 <= x < 1.0
    ensures Scaled(x, n) == x * (n as real)
  {
    if n > 0 {
      ScaledIsProduct(x, n - 1);
      assert x * (n as real) == x * ((n - 1) as real) + x;
    }
  }

  /** `Math.floor(x * n)` for a draw `x` in [0, 1): an index in [0, n). */
  function RandomIndex(x: real, n: nat): (k: nat)
    requires 0.0 <= x < 1.0
    requires n > 0
    ensures k < n
  {
    var y := Scaled(x, n);
    assert y.Floor as real <= y;
    y.Floor
  }

  /** A pseudo-random generator: a fixed stream of draws and how many of them were taken so far. */
  class Random {
    const stream: nat -> real
    var drawn: nat

    ghost predicate Valid() {
      ValidStream(stream)
    }

    constructor (stream: nat -> real)
      requires ValidStream(stream)
      ensures Valid() && this.stream == stream && drawn == 0
    {
      this.stream := stream;
      drawn := 0;
    }

    /** One call of `Math.random()`: the next draw of the stream. */
    method Next() returns (x: real)
      requires Valid()
      modifies this
      ensures drawn == old(drawn) + 1
      ensures x == Draw(stream, old(drawn))
      ensures 0.0 <= x < 1.0
    {
      x := Draw(stream, drawn);
      drawn := drawn + 1;
    }
  }
}
