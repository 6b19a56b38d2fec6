/** Small shared vocabulary of the model: identifiers, moments and optional values. */
module Common {

  /** A UUID. Only equality and the order used to break ties matter. */
  type Id = nat

  /** A moment in microseconds. */
  type Time = int

  datatype Option<+T> = None | Some(value: T)

  function Max(a: int, b: int): int {
    if a < b then b else a
  }
}
