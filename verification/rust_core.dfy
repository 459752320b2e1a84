/** The Rust vocabulary both builders are written in: `Option`, and the
    panics raised by `expect`/`unwrap`, which abort a build. */
module RustCore {

  datatype Option<+T> = None | Some(value: T)

  /** Why a Rust `parse::<u32>()` call failed (`IntErrorKind`). */
  datatype IntErrorKind = Empty | InvalidDigit | PosOverflow

  /** The reason a builder panics. */
  datatype Panic =
    | Expect(message: string)                       // Option::expect(message) on None
    | UnwrapNone                                    // Option::unwrap() on None
    | UnwrapParseError(text: string, kind: IntErrorKind)  // Result::unwrap() of a failed parse::<u32>

  /** Either the value a builder returned, or the panic that aborted it. */
  datatype Outcome<+T> = Ok(value: T) | Panicked(panic: Panic) {

    predicate IsFailure() {
      Panicked?
    }

    function PropagateFailure<U>(): Outcome<U>
      requires Panicked?
    {
      Panicked(panic)
    }

    function Extract(): T
      requires Ok?
    {
      value
    }
  }
}
