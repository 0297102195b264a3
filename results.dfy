/** Optional values and fallible results, standing in for Go's nil pointers and `error` returns. */
module Results {

  datatype Option<+T> = None | Some(value: T)

  datatype Result<+T, +E> = Ok(value: T) | Err(error: E)
}
