/** Small wrappers shared by every module of the model. */
module Wrappers {

  /** A JavaScript value that may be missing: `None` stands for `undefined`,
      and for `null` only where the code treats the two alike. */
  datatype Option<+T> = None | Some(value: T) {
    /** The value, or `default` when it is missing. */
    function GetOr(default: T): T {
      match this
      case Some(v) => v
      case None => default
    }
  }

  /** How an asynchronous service function settles: it returns a value or
      rejects with an `Error` whose `message` is given. */
  datatype Outcome<+T> = Returned(value: T) | Threw(message: string) {
    /** Applies `f` to a returned value and passes a thrown error through. */
    function Map<U>(f: T -> U): Outcome<U> {
      match this
      case Returned(v) => Returned(f(v))
      case Threw(m) => Threw(m)
    }
  }
}
