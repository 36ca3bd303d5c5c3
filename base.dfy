/** Option and Result, the two wrappers every other module uses for absent values and error returns. */
module Base {
  datatype Option<T> = None | Some(value: T)

  datatype Result<T, E> = Ok(value: T) | Err(error: E)
}
