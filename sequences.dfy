/** Facts about sequences that the solver finds slowly on its own. */
module Sequences {

  /** Concatenation is associative; stated once so that proofs can call it instead of searching for it. */
  lemma Associative<T>(x: seq<T>, y: seq<T>, z: seq<T>)
    ensures x + (y + z) == (x + y) + z
  {
  }

  /** Dropping the first element of a concatenation drops it from the left part. */
  lemma DropFirstOfAppend<T>(x: seq<T>, y: seq<T>)
    requires x != []
    ensures (x + y)[1..] == x[1..] + y
  {
  }

  /** A slice that lies within the left part of a concatenation. */
  lemma SliceOfAppendLeft<T>(x: seq<T>, y: seq<T>, i: nat, j: nat)
    requires i <= j <= |x|
    ensures (x + y)[i..j] == x[i..j]
  {
  }

  /** A slice that lies within the right part of a concatenation. */
  lemma SliceOfAppendRight<T>(x: seq<T>, y: seq<T>, i: nat, j: nat)
    requires |x| <= i <= j <= |x| + |y|
    ensures (x + y)[i..j] == y[i - |x|..j - |x|]
  {
  }
}
