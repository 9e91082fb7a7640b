/** Optional values: the `null`/`undefined` of the source. */
module Wrappers {
  datatype Option<+T> = None | Some(value: T) {
    function GetOr(default: T): T {
      match this
      case Some(v) => v
      case None => default
    }
  }

  /** What an HTTP handler answers: a value with status 200/201, or an error status and
      the `error` text of its JSON body. */
  datatype Reply<+T> = Ok(value: T) | Fail(code: int, message: string)
}
