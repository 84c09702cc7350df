/** Small shared datatypes: an optional value and the uniform tool result envelope. */
module Wrappers {

  datatype Option<+T> = None | Some(value: T) {
    function GetOr(default: T): T {
      match this
      case Some(v) => v
      case None => default
    }
  }

  /** The outcome of a step that can raise: its value, or the exception it raises. */
  datatype Result<+T> = Success(value: T) | Failure(error: string)

  /** The envelope every tool returns (execution time is not modelled). */
  datatype ToolResult<+T> = ToolResult(success: bool, data: Option<T>, error: Option<string>)

}
