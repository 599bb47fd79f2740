/** Small failure-compatible wrappers shared by every module of the model. */
module Wrappers {

  /** A value that may be absent: `null`/`undefined` in the application. */
  datatype Option<+T> = None | Some(value: T) {
    function GetOr(default: T): T {
      match this
      case Some(v) => v
      case None => default
    }
  }

  /** The outcome of an awaited call into an external collaborator
      (the remote document store, the generative-text service):
      either it resolved to a value or the promise rejected. */
  datatype Attempt<+T> = Done(value: T) | Threw
}
