/** Failure-carrying values shared by every module of the model. */
module Results {

  /** An optional value: the configuration's `?:` fields and failed parses. */
  datatype Option<+T> = None | Some(value: T)

  /** The outcome of a step that can fail with an error of type `E`. */
  datatype Result<+T, +E> = Success(value: T) | Failure(error: E)
}
