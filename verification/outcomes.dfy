/** The exceptions the order domain throws, and the result shapes that carry them. */
module Outcomes {

  /** One constructor per exception class the core throws; messages are kept verbatim. */
  datatype Error =
    | InvalidArgument(message: string)   // \InvalidArgumentException
    | DomainViolation(message: string)   // \DomainException
    | NotWellFormed                      // bcmath's ValueError for a malformed number string
    | ProductNotFound                    // ProductNotFoundException
    | OrderNotFound                      // OrderNotFoundException
    | ForbiddenOrderAccess               // ForbiddenOrderAccessException

  datatype Option<+T> = None | Some(value: T)

  /** A value, or the exception that was thrown instead of returning it. */
  datatype Result<+T> = Ok(value: T) | Err(error: Error)

  /** The result of a `void` operation that may throw. */
  datatype Outcome = Pass | Fail(error: Error)
}
