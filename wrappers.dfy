/** Option and the success/failure envelope shared by every service operation. */
module Wrappers {

  /** A value that may be absent: SQL NULL, a missing array key, a falsy `fetch()`. */
  datatype Option<+T> = None | Some(value: T) {
    function GetOr(default: T): T {
      if Some? then value else default
    }
  }

  /** The `['success' => …]` arrays the controllers return: a payload, or a message. */
  datatype Response<+T> = Success(body: T) | Failure(message: string)
}
