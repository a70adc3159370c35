/** The two failure-carrying shapes the Go code uses: a value that may be
    absent (a nil pointer, a missing map entry) and a value-or-error pair,
    where an error is known only by its message (`err.Error()`). */
module Results {

  datatype Option<+T> = None | Some(value: T)

  datatype Result<+T> = Ok(value: T) | Err(message: string)
}
