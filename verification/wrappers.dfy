/** Rust's `Option`, and a `Result` whose `Failure` stands for a panic. */
module Wrappers {

  /** Rust's `Option<T>`. */
  datatype Option<+T> = None | Some(value: T)

  /** A computation that either produces a value or aborts; `Failure` stands
      for a Rust panic (a failed `assert!` or an `unwrap` of `None`). */
  datatype Result<+T, +E> = Success(value: T) | Failure(error: E)
}
