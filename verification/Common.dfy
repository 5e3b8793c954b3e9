/** Small datatypes shared by every model in this project. */
module Common {

  /** Points in time and durations, in nanoseconds. */
  type Time = int

  /** A random identifier returned by NewID. Only equality of identifiers matters. */
  type ID = nat

  const SECOND: Time := 1_000_000_000
  const MINUTE: Time := 60 * SECOND

  datatype Option<+T> = None | Some(value: T)

  datatype Result<+T, +E> = Ok(value: T) | Err(error: E)

  function Last<T>(s: seq<T>): T
    requires |s| > 0
  {
    s[|s| - 1]
  }
}
