/** Failure-carrying results shared by the modules of the model: a C++
    `throw` becomes a `Failure` holding the exception's kind. */
module Results {

  datatype Result<+T, +E> = Success(value: T) | Failure(error: E)

  datatype Option<+T> = None | Some(value: T)
}
