/** Error results standing for the exceptions the uploader raises or catches. */
module Outcomes {

  /** The exception kinds that matter to the core, one constructor per kind. */
  datatype Error =
    | ValueError(message: string)
    | IOError(message: string)
    | TypeError(message: string)
    | AttributeError(message: string)
    // jsonlines refuses a line that is not a JSON object (skip_invalid=False)
    | InvalidLine
    // an operation on a file handle that was already closed
    | ClosedFile
    | FileNotFound
    // an error raised by the remote store (botocore ClientError and the like)
    | RemoteError(message: string)

  /** A value, or the exception that was raised instead of returning it. */
  datatype Result<+T> = Ok(value: T) | Err(error: Error) {
    predicate IsFailure() { Err? }
    function PropagateFailure<U>(): Result<U>
      requires Err?
    {
      Err(error)
    }
    function Extract(): T
      requires Ok?
    {
      value
    }
  }

  /** Python's `x | None`. */
  datatype Option<+T> = None | Some(value: T)
}
