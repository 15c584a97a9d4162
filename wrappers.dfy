/** Option and Result values. Option is failure-compatible, so the script
    recognisers can chain their steps with `:-`. */
module Wrappers {

  datatype Option<+T> = None | Some(value: T) {
    predicate IsFailure() {
      None?
    }

    function PropagateFailure<U>(): Option<U>
      requires None?
    {
      None
    }

    function Extract(): T
      requires Some?
    {
      value
    }
  }

  /** A conversion either yields a document or fails with a message (the
      exception the caller catches and shows). */
  datatype Result<+T> = Ok(value: T) | Err(message: string)
}
