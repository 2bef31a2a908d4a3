/** Optional values, results and the argument errors the core raises. */
module Wrappers {

  /** A value that may be missing: the model of a C# reference that may be null. */
  datatype Option<+T> = None | Some(value: T)

  /** Either a value or the exception the operation throws instead. */
  datatype Result<+R, +E> = Success(value: R) | Failure(error: E)

  /** The argument exceptions thrown by the core, with the parameter they name. */
  datatype ArgumentError =
    | ArgumentNull(paramName: string)            // ArgumentNullException
    | ZeroApiVersionWriters(paramName: string)   // ArgumentException with the "zero writers" message
}
