// Shared vocabulary: optional values, results, time, message bodies, and the
// outcome of a step that the environment may let succeed, fail, or interrupt.

module Common {
  datatype Option<+T> = None | Some(value: T)

  datatype Result<+T, +E> = Success(value: T) | Failure(error: E)

  // Nanoseconds, as Go's time package counts them.
  type Time = int

  const MILLISECOND: int := 1_000_000
  const SECOND: int := 1_000_000_000

  newtype byte = x: int | 0 <= x < 256

  // The bytes of a message. Nothing in the relay changes them.
  type Body = seq<byte>

  // A raw JSON document inside a decoded event.
  type Json = string

  // What the environment does to a fallible step: it takes effect, it reports
  // an error without effect, or the process dies before it takes effect.
  datatype Outcome = Ok | Fails | Dies

  // How a service call ends: it returns (with or without an error), or the
  // process dies inside it.
  datatype SendResult = Returned(err: bool) | Died

  function Interrupted(o: Outcome): SendResult {
    if o.Dies? then Died else Returned(true)
  }

  function Max(a: int, b: int): int {
    if a < b then b else a
  }
}
