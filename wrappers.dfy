/** Option and Result: the error returns of the Go code become values. */
module Wrappers {

  datatype Option<+T> = None | Some(value: T) {
    function GetOr(default: T): T {
      match this
      case Some(v) => v
      case None => default
    }
  }

  datatype Result<+T, +E> = Ok(value: T) | Err(error: E)

  /** The result of an operation that returns only an error. */
  datatype Outcome<+E> = Pass | Fail(error: E)

  /** Millisecond clock constants shared by every module. */
  const MillisPerSecond: int := 1000

  /** `time.Time{}.Unix()`: the zero Go time, 0001-01-01 UTC, in Unix seconds. */
  const ZeroTimeUnixSeconds: int := -62135596800

  /** `time.Time{}` on the millisecond clock used by the model. */
  const ZeroTimeMillis: int := ZeroTimeUnixSeconds * MillisPerSecond

  /** `t.Unix()` for a millisecond clock value (floor division, as Go does). */
  function UnixSeconds(nowMillis: int): int {
    nowMillis / MillisPerSecond
  }
}
