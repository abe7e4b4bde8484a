/** `shuffle` (index.js:46-59): an in-place permutation of an array driven by random draws. */
module Shuffling {
  import opened RandomSource

  /**
   * The array after `temp = arr[i]; arr[i] = arr[j]; arr[j] = temp`: the
   * entries at `i` and `j` are exchanged.
   */
  function Swap<T>(s: seq<T>, i: nat, j: nat): (r: seq<T>)
    requires i < |s| && j < |s|
    ensures |r| == |s|
    ensures r[i] == s[j] && r[j] == s[i]
  {
    s[i := s[j]][j := s[i]]
  }

  /** A swap keeps every entry other than the two it exchanges. */
  lemma SwapKeeps<T>(s: seq<T>, i: nat, j: nat)
    requires i < |s| && j < |s|
    ensures forall k :: 0 <= k < |s| && k != i && k != j ==> Swap(s, i, j)[k] == s[k]
  {
  }

  /** A swap is a permutation. */
  lemma SwapPermutes<T>(s: seq<T>, i: nat, j: nat)
    requires i < |s| && j < |s|
    ensures multiset(Swap(s, i, j)) == multiset(s)
  {
  }

  /**
   * What the remaining `counter` iterations of the loop do to `s` when the
   * next draw is `Draw(stream, pos)`: each iteration picks `index` in [0, counter),
   * decrements `counter` and swaps the entries at `counter` and `index`.
   */
  function ShuffleFrom<T>(s: seq<T>, stream: nat -> real, pos: nat, counter: nat): (r: seq<T>)
    requires ValidStream(stream)
    requires counter <= |s|
    ensures |r| == |s|
    decreases counter
  {
    if counter == 0 then s
    else
      var index := RandomIndex(Draw(stream, pos), counter);
      ShuffleFrom(Swap(s, counter - 1, index), stream, pos + 1, counter - 1)
  }

  /** The remaining iterations leave the entries from `counter` on where they are. */
  lemma {:induction false} ShuffleFromKeeps<T>(s: seq<T>, stream: nat -> real, pos: nat, counter: nat)
    requires ValidStream(stream)
    requires counter <= |s|
    ensures forall k :: counter <= k < |s| ==> ShuffleFrom(s, stream, pos, counter)[k] == s[k]
    decreases counter
  {
    if counter > 0 {
      var index := RandomIndex(Draw(stream, pos), counter);
      SwapKeeps(s, counter - 1, index);
      ShuffleFromKeeps(Swap(s, counter - 1, index), stream, pos + 1, counter - 1);
    }
  }

  /** The remaining iterations only permute the array. */
  lemma {:induction false} ShuffleFromPermutes<T>(s: seq<T>, stream: nat -> real, pos: nat, counter: nat)
    requires ValidStream(stream)
    requires counter <= |s|
    ensures multiset(ShuffleFrom(s, stream, pos, counter)) == multiset(s)
    decreases counter
  {
    if counter > 0 {
      var index := RandomIndex(Draw(stream, pos), counter);
      SwapPermutes(s, counter - 1, index);
      ShuffleFromPermutes(Swap(s, counter - 1, index), stream, pos + 1, counter - 1);
    }
  }

  /** One iteration of the loop, unfolded. */
  lemma ShuffleStep<T>(s: seq<T>, stream: nat -> real, pos: nat, counter: nat)
    requires ValidStream(stream)
    requires 0 < counter <= |s|
    ensures ShuffleFrom(s, stream, pos, counter)
         == ShuffleFrom(Swap(s, counter - 1, RandomIndex(Draw(stream, pos), counter)), stream, pos + 1, counter - 1)
  {
  }

  /** The whole shuffle of `s`, starting with draw number `pos`. */
  function Shuffled<T>(s: seq<T>, stream: nat -> real, pos: nat): (r: seq<T>)
    requires ValidStream(stream)
    ensures |r| == |s|
  {
    ShuffleFrom(s, stream, pos, |s|)
  }

  /** The whole shuffle is a permutation. */
  lemma ShuffledPermutes<T>(s: seq<T>, stream: nat -> real, pos: nat)
    requires ValidStream(stream)
    ensures multiset(Shuffled(s, stream, pos)) == multiset(s)
  {
    ShuffleFromPermutes(s, stream, pos, |s|);
  }

  /** `shuffle(arr)`: permutes `a` in place, taking one draw per element. */
  method Shuffle<T>(a: array<T>, random: Random)
    requires random.Valid()
    modifies a, random
    ensures random.drawn == old(random.drawn) + a.Length
    ensures a[..] == Shuffled(old(a[..]), random.stream, old(random.drawn))
    ensures multiset(a[..]) == multiset(old(a[..]))
  {
    ghost var s0, pos0 := a[..], random.drawn;
    var counter := a.Length;
    while counter > 0
      invariant 0 <= counter <= a.Length
      invariant random.drawn == pos0 + (a.Length - counter)
      invariant ShuffleFrom(a[..], random.stream, random.drawn, counter) == ShuffleFrom(s0, random.stream, pos0, |s0|)
    {
      ghost var before, pos, last := a[..], random.drawn, counter;
      var x := random.Next();
      var index := RandomIndex(x, counter);
      ShuffleStep(before, random.stream, pos, last);
      counter := counter - 1;
      var temp := a[counter];
      a[counter] := a[index];
      a[index] := temp;
      assert a[..] == Swap(before, counter, index);
    }
    ShuffledPermutes(s0, random.stream, pos0);
  }
}
