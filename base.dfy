/** Small shared vocabulary of the model. */
module Base {
  /** A value that may be absent: Python's `None` versus a present value. */
  datatype Option<T> = None | Some(value: T)
}
