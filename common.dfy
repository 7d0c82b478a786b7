/** Small failure-carrying datatypes shared by every module of the model. */
module Common {

  /** A value that may be absent: Python's `None` versus a present value,
      or a dictionary key that is missing versus present. */
  datatype Option<+T> = None | Some(value: T) {
    /** `d.get(key, default)` once the lookup has produced this option. */
    function GetOr(default: T): T {
      match this
      case Some(v) => v
      case None => default
    }
  }

  /** The outcome of a validation: an accepted value or the errors raised. */
  datatype Result<+T, +E> = Ok(value: T) | Err(error: E)
}
