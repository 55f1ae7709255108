/** Optional values and results with an error, shared by every module of the model.
    `None` stands for a dictionary key, environment variable or JavaScript property
    that is absent. */
module Wrappers {

  datatype Option<+T> = None | Some(value: T) {
    /** The held value, or `default` when absent (Python's `d.get(k, default)`). */
    function UnwrapOr(default: T): T {
      match this
      case Some(v) => v
      case None => default
    }
  }

  datatype Result<+T, +E> = Ok(value: T) | Err(error: E)
}
