/** Option and Result, shared by every module. */
module Prelude {

  datatype Option<+T> = None | Some(value: T)

  /** A sequence extended by one, without its last element. */
  lemma ButLast<T>(xs: seq<T>, x: T)
    ensures (xs + [x])[..|xs + [x]| - 1] == xs
  {
  }

  datatype Result<+T, +E> = Ok(value: T) | Err(error: E)
}
