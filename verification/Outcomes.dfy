/** Values that may be absent, and calls that may raise. */
module Outcomes {
  datatype Option<+T> = None | Some(value: T)

  /** The exception classes the engine distinguishes. */
  datatype Error = ConfigurationError | SafetyViolation | ExecutionError | DeviceError | TimeoutError

  datatype Result<+T> = Ok(value: T) | Err(error: Error)

  /** The end of a call that returns nothing: normally, or by raising. */
  datatype Outcome = Done | Raised(error: Error) {
    predicate IsFailure() {
      Raised?
    }

    function PropagateFailure(): Outcome {
      this
    }
  }

  function Max(a: int, b: int): int {
    if a < b then b else a
  }

  function Min(a: int, b: int): int {
    if a < b then a else b
  }
}
