/** Results of transactions that may throw, and values that may be absent. */
module Wrappers {

  datatype Option<+T> = None | Some(value: T) {

    /** The value, or the given default; models the `??` operator. */
    function GetOr(default: T): T {
      match this
      case Some(v) => v
      case None => default
    }
  }

  /** `Throws` is a transaction that threw: the database rolls it back. */
  datatype Result<+T> = Returns(value: T) | Throws
}
