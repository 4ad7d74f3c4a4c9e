/** Option and Result, the failure-compatible wrappers every decoder and
    builder of the model returns. */
module Wrappers {

  /** A field that the wire message may or may not carry, or a builder slot
      that may not have been filled yet (Java's `null`). */
  datatype Option<+T> = None | Some(value: T) {

    /** The value, or `default` when absent (Java's `Optional.orElse`). */
    function GetOr(default: T): T {
      match this
      case Some(v) => v
      case None => default
    }

    /** Applies `f` to a present value (Java's `Optional.map`). */
    function Map<U>(f: T -> U): Option<U> {
      match this
      case Some(v) => Some(f(v))
      case None => None
    }
  }

  /** The outcome of a decoder or of a builder's `build()`. */
  datatype Result<+R, +E> = Success(value: R) | Failure(error: E)

  /** The outcome of a builder step that can only reject its argument. */
  datatype Outcome<+E> = Pass | Fail(error: E)
}

/** The structured errors the protocol layer raises as
    `IllegalArgumentException`s. */
module Errors {

  datatype Error =
    /** `require(name, x)`, `requireNotEmpty(name, xs)` and
        `orElseThrow(required(name))`: the message is "<name> is required". */
    | Required(field: string)
    /** `oneOfIsNotEmpty(name, ...)`: none of several collections has an
        element. */
    | OneOfRequired(field: string)
    /** An argument rejected with a fixed message. */
    | IllegalArgument(message: string)
    /** `new HashSet<>(capacity)` with a negative capacity (a JDK check). */
    | IllegalCapacity(capacity: int)

  /** The exception text for the errors whose text the model knows. */
  function Message(e: Error): string
    requires e.Required? || e.IllegalArgument?
  {
    match e
    case Required(field) => field + " is required"
    case IllegalArgument(message) => message
  }
}
