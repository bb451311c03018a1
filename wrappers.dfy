/** Kotlin's nullable types and `kotlin.Result`, as datatypes. */
module Wrappers {

  /** `T?`: `None` is Kotlin's `null`. */
  datatype Option<+T> = None | Some(value: T) {
    /** `this ?: default` */
    function GetOr(default: T): T {
      match this
      case Some(v) => v
      case None => default
    }
  }

  /** `kotlin.Result<R>`; the failure carries the caught throwable. */
  datatype Result<+R, +E> = Success(value: R) | Failure(error: E) {
    /** `getOrNull()` */
    function GetOrNull(): Option<R> {
      match this
      case Success(v) => Some(v)
      case Failure(_) => None
    }

    /** `exceptionOrNull()` */
    function ExceptionOrNull(): Option<E> {
      match this
      case Success(_) => None
      case Failure(e) => Some(e)
    }
  }

  /** The throwable a failed request or a failed `getOrThrow` carries; its content is opaque. */
  datatype Error = Error(message: string)
}
