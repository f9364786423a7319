/**
 * Small facts about sequences, stated once so that the proofs about
 * recursive functions over sequences can cite them without restating
 * the sequence equalities next to those functions.
 */
module Seqs {

  /** A non-empty sequence is its first element followed by the rest. */
  lemma HeadTail<T>(t: seq<T>)
    requires |t| >= 1
    ensures [t[0]] + t[1..] == t
  {
  }

  /** A non-empty sequence is its prefix followed by its last element. */
  lemma SplitLast<T>(t: seq<T>)
    requires |t| >= 1
    ensures t[..|t| - 1] + [t[|t| - 1]] == t
  {
  }

  /** One more element extends a prefix. */
  lemma Snoc<T>(t: seq<T>, i: nat)
    requires i < |t|
    ensures t[..i + 1] == t[..i] + [t[i]]
  {
  }

  /** The head and tail of `a + b` when `a` is non-empty. */
  lemma AppendHeadTail<T>(a: seq<T>, b: seq<T>)
    requires a != []
    ensures (a + b)[0] == a[0] && (a + b)[1..] == a[1..] + b
  {
  }

  /** Appending to or after the empty sequence changes nothing. */
  lemma AppendEmpty<T>(a: seq<T>, b: seq<T>)
    requires a == []
    ensures a + b == b && b + a == b
  {
  }

  /** Concatenation is associative. */
  lemma Assoc<T>(a: seq<T>, b: seq<T>, c: seq<T>)
    ensures (a + b) + c == a + (b + c)
  {
  }
}
