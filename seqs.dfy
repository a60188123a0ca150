/** Facts about sequence concatenation and slicing. The proofs call them
    with large terms in place of the variables, so that the solver never
    has to reason about the elements of those terms. */
module Seqs {
  lemma AppendAssociative<T>(x: seq<T>, y: seq<T>, z: seq<T>)
    ensures (x + y) + z == x + (y + z)
  {
  }

  lemma AppendEmpty<T>(x: seq<T>)
    ensures x + [] == x && [] + x == x
  {
  }

  lemma ConcatSlices<T>(x: seq<T>, y: seq<T>, z: seq<T>)
    ensures (x + y + z)[..|x|] == x
    ensures (x + y + z)[|x|..|x| + |y|] == y
    ensures (x + y + z)[|x| + |y|..] == z
  {
  }

  /** A non-empty sequence is its front followed by its last element. */
  lemma SplitLast<T>(x: seq<T>)
    requires x != []
    ensures x == x[..|x| - 1] + [x[|x| - 1]]
  {
  }

  /** Dropping the last element of `x + [e]` gives back `x`. */
  lemma TakeSnoc<T>(x: seq<T>, e: T)
    ensures (x + [e])[..|x|] == x
    ensures (x + [e])[|x|] == e
  {
  }

  /** A prefix one longer is the prefix followed by the next element. */
  lemma TakeNext<T>(x: seq<T>, j: nat)
    requires j < |x|
    ensures x[..j + 1] == x[..j] + [x[j]]
  {
  }

  /** Dropping the first element of `x + y` with `x` non-empty. */
  lemma DropFirstAppend<T>(x: seq<T>, y: seq<T>)
    requires x != []
    ensures (x + y)[1..] == x[1..] + y
    ensures (x + y)[0] == x[0]
  {
  }

  /** The last element of `x + y` with `y` non-empty is that of `y`. */
  lemma LastAppend<T>(x: seq<T>, y: seq<T>)
    requires y != []
    ensures (x + y)[|x + y| - 1] == y[|y| - 1]
  {
  }

  /** An element of a prefix is an element of the whole. */
  lemma PrefixMember<T>(x: seq<T>, y: seq<T>, k: nat)
    requires x <= y && k < |x|
    ensures x[k] in y && x[k] == y[k]
  {
  }
}
