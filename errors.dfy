/** The exceptions the modelled code throws, and the wrapper a throwing call returns. */
module Errors {

  /** An exception of the .NET base library. `paramName` is the parameter name the
      throwing code passes; the empty string stands for a constructor called without one. */
  datatype Exception =
    | ArgumentOutOfRange(paramName: string)
    | ArgumentNull(paramName: string)
    | Argument(paramName: string)
    | NotImplemented

  /** A nullable value. */
  datatype Option<+T> = None | Some(value: T)

  /** The outcome of a call that either returns a value or throws. */
  datatype Result<+T> = Ok(value: T) | Throw(error: Exception)
}
