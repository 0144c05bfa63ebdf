/** Failure-compatible wrappers and the ways one `hg postreview` invocation can stop early. */
module Base {

  datatype Option<+T> = None | Some(value: T)

  /** Why an invocation ends without posting a review. */
  datatype Failure =
    | Abort(message: string)          // util.Abort raised by the extension, or a ReviewBoardError re-raised verbatim
    | UnknownRevision(spec: string)   // the backend cannot resolve a revision specifier (repo[spec])
    | RemoteNotFound(path: string)    // the backend cannot open the remote repository at path
    | Uncaught(exception: string)     // a Python exception the extension lets escape (IndexError, ValueError, ...)

  datatype Result<+T> = Ok(value: T) | Err(failure: Failure) {
    predicate IsFailure() { Err? }
    function PropagateFailure<U>(): Result<U> requires Err? { Err(failure) }
    function Extract(): T requires Ok? { value }
  }

  /** What the Review Board server answers to one call: a value, or a ReviewBoardError message. */
  datatype Reply<+T> = Answer(value: T) | Refusal(message: string)
}
