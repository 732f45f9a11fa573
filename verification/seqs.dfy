/** Sequences of one repeated element. */
module Seqs {

  /** `n` copies of `x`. */
  function Replicate<T>(x: T, n: nat): (r: seq<T>)
    ensures |r| == n
    ensures forall i :: 0 <= i < n ==> r[i] == x
  {
    seq(n, _ => x)
  }
}
