/**
  The failure a simulator call can end in. Both scripts index plain arrays
  without checking lengths, so the only error either can raise is Python's
  `IndexError`.
 */
module Outcomes {

  datatype Error = IndexOutOfRange

  datatype Result<+T> = Success(value: T) | Failure(error: Error)
}
