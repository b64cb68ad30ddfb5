/** Option and Result, the two shapes every operation of the model returns
    when the source can answer "nothing" or raise an exception. */
module Wrappers {
  datatype Option<T> = None | Some(value: T)

  /** `Ok(v)` is a normal return; `Fail(e)` stands for a raised exception,
      a `sys.exit` or a C `NULL`, carrying what the source reports. */
  datatype Result<T, E> = Ok(value: T) | Fail(error: E)
}
