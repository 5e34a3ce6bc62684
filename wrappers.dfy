/** Optional values, used where the Go code returns a value or nothing. */
module Wrappers {

  datatype Option<+T> = None | Some(value: T)

}

/** Facts about sequences that the proofs cite by name. */
module Seqs {

  lemma AppendAssoc<T>(a: seq<T>, b: seq<T>, c: seq<T>)
    ensures (a + b) + c == a + (b + c)
  {
  }

}
