/**
 * The error values of the pipeline: the single classified kind
 * `OracleExecutionError` (a message plus an optional cause stored as given)
 * and every other JavaScript error, which keeps its own name.
 */
module OracleErrors {
  import opened Wrappers

  const OracleExecutionErrorName: string := "OracleExecutionError"

  datatype Failure =
    | OracleExecutionError(message: string, cause: Option<Failure>)
    | OtherError(errorName: string, message: string)
  {
    /** The `name` property the error reports. */
    function Name(): (n: string)
      ensures OracleExecutionError? ==> n == OracleExecutionErrorName
      ensures OtherError? ==> n == errorName
    {
      if OracleExecutionError? then OracleExecutionErrorName else errorName
    }
  }

  /** `new OracleExecutionError(message, cause)`: stores both exactly as given. */
  function NewOracleExecutionError(message: string, cause: Option<Failure>): (e: Failure)
    ensures e.OracleExecutionError?
    ensures e.message == message && e.cause == cause
    ensures e.Name() == OracleExecutionErrorName
  {
    OracleExecutionError(message, cause)
  }

  /** `new Error(message)`: a plain error, not of the classified kind. */
  function PlainError(message: string): (e: Failure)
    ensures !e.OracleExecutionError?
    ensures e.message == message && e.Name() == "Error"
  {
    OtherError("Error", message)
  }
}
