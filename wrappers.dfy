/** Optional values and pass/fail outcomes, used for C#'s nullable fields and thrown exceptions. */
module Wrappers {

  /** A value that may be absent: C#'s `null` string or `DateTime?` without a value. */
  datatype Option<+T> = None | Some(value: T)

  /** A call that returns normally (`Pass`) or throws the exception `error` (`Fail`). */
  datatype Outcome<+E> = Pass | Fail(error: E)

  /** The exceptions the modelled code throws. */
  datatype Exception =
    | ApplicationException(message: string)
    | NotImplementedException
}
