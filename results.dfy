/** Nil-able values, and the values a raising Ruby call is modelled by. */
module Results {

  /** A Ruby value that may be nil. */
  datatype Option<+T> = None | Some(value: T) {

    /** The value, or `default` when nil (Ruby's `Hash#fetch(key, default)` on a missing key). */
    function GetOr(default: T): T {
      match this
      case Some(v) => v
      case None => default
    }
  }

  /** Either a value or the message of the RuntimeError the source raises. */
  datatype Result<+T> = Ok(value: T) | Err(msg: string) {

    predicate IsFailure() {
      Err?
    }

    function PropagateFailure<U>(): Result<U>
      requires Err?
    {
      Err(msg)
    }

    function Extract(): T
      requires Ok?
    {
      value
    }
  }

  /** What a setter call comes to: it returns normally, or raises with a message. */
  datatype Outcome = Pass | Fail(msg: string)
}
