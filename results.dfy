/** Failure-carrying values shared by every module of the model: a Python `None`
    or a missing key becomes `None`, a raised error or an error response becomes
    `Err`/`Fail`. */
module Results {

  datatype Option<T> = None | Some(value: T) {
    /** `dict.get(key, default)` / `validated_data.get(key, default)` */
    function GetOr(default: T): T {
      if Some? then value else default
    }
  }

  datatype Result<T, E> = Ok(value: T) | Err(error: E)

  /** A check that either passes or reports one error (a validator that may raise). */
  datatype Outcome<E> = Pass | Fail(error: E)
}
