/** Small failure-carrying datatypes and one sequence fact shared by the model. */
module Wrappers {

  /** Rust's `Option<T>`. */
  datatype Option<+T> = None | Some(value: T)

  /**
   * The outcome of Rust code that may panic (an `unwrap`, an `expect`, an
   * out-of-range index or an integer underflow): either it returns a value or
   * the thread panics with a message.
   */
  datatype Fallible<+T> = Returned(value: T) | Panicked(reason: string)

  /** Sequence concatenation regroups; stated once so that the proofs need not search for it. */
  lemma AppendAssoc<T>(a: seq<T>, b: seq<T>, c: seq<T>)
    ensures (a + b) + c == a + (b + c)
  {
  }
}
