/** Failure-compatible wrappers shared by the provider model. */
module Results {

  /** A value that may be missing; `None` stands for a JavaScript `undefined`. */
  datatype Option<+T> = None | Some(value: T)

  /** The ways one provider call can fail. */
  datatype Error =
      /** a property was read from `null` (`attributes.sid` with null attributes) */
    | TypeError
      /** the descriptor did not yield a collection handle */
    | InvalidDescriptor
      /** the remote system has no object under the requested sid */
    | NotFound

  /** The outcome of a call that may fail; usable with `:-`. */
  datatype Result<+T> = Ok(value: T) | Err(error: Error) {

    predicate IsFailure() {
      Err?
    }

    function PropagateFailure<U>(): Result<U>
      requires Err?
    {
      Err(error)
    }

    function Extract(): T
      requires Ok?
    {
      value
    }
  }
}
