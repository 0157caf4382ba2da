/** Values shared by the whole model: optional values, results, and the
    Python exceptions that the conversation tree can raise. */
module PyValues {

  /** Python's `None` or a present value. */
  datatype Option<+T> = None | Some(value: T)

  /** Python exceptions raised by the modelled code. */
  datatype PyError =
    | IndexError       // `path[i]` with `i` outside `[-len, len)`
    | TypeError        // iterating over a mock answer that is `None`
    | AttributeError   // reading the attribute `A` before it was assigned

  /** A call that either returns a value or raises. */
  datatype Result<+T> = Ok(value: T) | Err(error: PyError)
}
