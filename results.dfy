/** Option and Result: the absent value of a lookup and the value-or-error of a check. */
module Results {

  datatype Option<+T> = None | Some(value: T)

  datatype Result<+T, +E> = Ok(value: T) | Err(error: E)
}
