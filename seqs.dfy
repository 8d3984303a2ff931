// A fact about sequences that the driver models use when they extend a
// log or an event list one piece at a time.
module Seqs {

  /** Concatenation is associative. */
  lemma AppendAssoc<T>(a: seq<T>, b: seq<T>, c: seq<T>)
    ensures a + b + c == a + (b + c)
  {
  }
}
