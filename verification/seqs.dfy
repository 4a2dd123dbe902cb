/** Small facts about sequences that the loop proofs share. */
module Seqs {
  /** Appending to a log that already grew: the two steps in one. */
  lemma AppendAssoc<T>(a: seq<T>, b: seq<T>, c: seq<T>)
    ensures (a + b) + c == a + (b + c)
  {
  }
}
