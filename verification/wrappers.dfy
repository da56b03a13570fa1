/** Failure-compatible wrappers shared by every module of the model. */
module Wrappers {

  /** A value that may be absent: JavaScript `undefined` or a missing optional field. */
  datatype Option<+T> = None | Some(value: T)

  /** The outcome of a call into code outside the model (IPC, the Kubernetes client,
      git, the shell): it either resolves with a value or throws an error message. */
  datatype Outcome<+T> = Success(value: T) | Failure(error: string)

  /** The payload of a call whose resolved value is never read. */
  datatype Unit = Unit
}
