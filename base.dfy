/** Small shared vocabulary: optional values, results with an error side, and record identifiers. */
module Base {

  /** A value that may be absent. */
  datatype Option<+T> = None | Some(value: T) {
    function GetOr(default: T): T {
      if Some? then value else default
    }
  }

  /** The outcome of an operation that can fail with an error of type `E`. */
  datatype Result<+T, +E> = Ok(value: T) | Err(error: E)

  /** Identifier of a stored record (a MongoDB ObjectId). Ids are never reused. */
  type Id = nat
}
