/** Small failure-compatible wrappers and the identifiers every other module shares. */
module Shared {

  /** An absent-or-present value, standing in for a value Go may leave nil. */
  datatype Option<+T> = None | Some(value: T)

  /** A value or an error, standing in for Go's `(T, error)` pair. */
  datatype Result<+T, +E> = Ok(value: T) | Err(error: E) {
    predicate IsFailure() { Err? }

    function PropagateFailure<U>(): Result<U, E>
      requires Err?
    {
      Err(error)
    }

    function Extract(): T
      requires Ok?
    {
      value
    }
  }

  /** A base58-encoded public key (an owner, authority, vault or rendezvous key). */
  type Account = string

  /** Wall-clock time in nanoseconds since Go's zero time. */
  type Time = int

  const Second: int := 1_000_000_000
  const Minute: int := 60 * Second
}
