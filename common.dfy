/** Shared value types used by every part of the model. */
module Common {

  /** `T | null` / `T | undefined` in the source. */
  datatype Option<+T> = None | Some(value: T) {
    function GetOr(default: T): T {
      match this
      case Some(v) => v
      case None => default
    }
  }

  /** A settled promise or a call that may throw. */
  datatype Result<+R, +E> = Ok(value: R) | Err(error: E)

  /**
   * A thrown JavaScript value. `ErrorValue` is anything that is `instanceof Error`
   * (a `DOMException` is one too, and is flagged as such, so that an abort can be
   * told apart by its name); `OtherValue` is anything else, such as the `Event`
   * an image's `onerror` rejects with.
   */
  datatype Thrown = ErrorValue(domException: bool, name: string, message: string) | OtherValue

  /** `err instanceof DOMException && err.name === "AbortError"`. */
  predicate IsAbort(e: Thrown) {
    e.ErrorValue? && e.domException && e.name == "AbortError"
  }

  /** `err instanceof Error ? err.message : fallback`. */
  function MessageOr(e: Thrown, fallback: string): string {
    match e
    case ErrorValue(_, _, message) => message
    case OtherValue => fallback
  }

  /** A point of the plane, over reals as an idealisation of JS numbers. */
  datatype Point = Point(x: real, y: real)
}
