/** The value types every other module shares. */
module Prelude {

  /** A value that may be absent: a nil pointer, a missing key, a failed lookup. */
  datatype Option<+T> = None | Some(value: T)

  /** The source's `(value, error)` pairs. */
  datatype Result<+T, +E> = Ok(value: T) | Err(error: E)

  /** Durations are integers counting nanoseconds, as in the source. */
  const SECOND: int := 1_000_000_000

  function Min(a: int, b: int): int { if a <= b then a else b }

  function Max(a: int, b: int): int { if a <= b then b else a }

  /** A clock reading cut down to the whole second, as RFC 3339 stores it. */
  function WholeSecond(t: nat): (s: nat)
    ensures s <= t < s + SECOND
    ensures s % SECOND == 0
  {
    t / SECOND * SECOND
  }
}
