/** Option and result types shared by every module of the model. */
module Wrappers {

  /** A nullable reference or nullable value of the source (`string?`, `DateTime?`). */
  datatype Option<+T> = None | Some(value: T) {
    /** The `??` operator of the source: the value, or `default` when there is none. */
    function GetOr(default: T): T {
      if Some? then value else default
    }
  }

  /** A FluentResults `Result<T>` whose error is a single message. */
  datatype Result<+T> = Ok(value: T) | Fail(message: string)
}
