/** The optional value that stands for a TypeScript field that may be `undefined` or `null`. */
module Wrappers {

  datatype Option<+T> = None | Some(value: T) {

    /** The value if present, otherwise `default` (the `??` operator). */
    function GetOr(default: T): T {
      match this
      case Some(v) => v
      case None => default
    }
  }

  /** How an awaited promise settles: it resolves, or it rejects with an error message. */
  datatype Settled = Resolved | Rejected(error: string)
}
