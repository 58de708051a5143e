/** Absent values and raised errors of the evaluation platform, as values. */
module Outcomes {

  /** Python's `X | None`. */
  datatype Option<+T> = None | Some(value: T)
  {
    /** `value if value is not None else default` */
    function GetOr(default: T): T
    {
      match this
      case Some(v) => v
      case None => default
    }
  }

  /** A computation that either returns a value or raises an error. */
  datatype Result<+T, +E> = Ok(value: T) | Err(error: E)
}
