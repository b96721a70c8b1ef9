/** Absent values and thrown exceptions of the Java code, as values. */
module Outcomes {

  /** A Java reference that may be null. */
  datatype Option<+T> = None | Some(value: T) {

    /** The value, or `default` when it is null (`x != null ? x : default`). */
    function GetOr(default: T): T {
      match this
      case Some(v) => v
      case None => default
    }
  }

  /**
   * What the modelled code throws, catches or lets propagate: checked and
   * unchecked exceptions, and `java.lang.Error`s such as `LinkageError`,
   * which a `catch (Exception e)` does not catch.
   */
  datatype Throwable =
    | IOException(message: string)
    | RuntimeException(message: string)
    | Error(message: string)
  {
    /** Caught by `catch (Exception e)`. */
    predicate IsException() {
      !Error?
    }
  }

  /** A call that either returns a value or throws. */
  datatype Result<+T> = Ok(value: T) | Err(error: Throwable)
}
