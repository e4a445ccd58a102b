/** Option and Result, used for the values Python code returns as None or raises. */
module Wrappers {

  datatype Option<+T> = None | Some(value: T)

  datatype Result<+R, +E> = Ok(value: R) | Err(error: E)
}

/** The exceptions that cross the database layer. */
module Errors {

  /** `OperationalError(code)` is SQLAlchemy's `exc.OperationalError` whose first argument is
      the MySQL client error `code`; `DisconnectionError` is SQLAlchemy's signal to the pool that a
      connection is dead; `AppError` stands for any other `Exception` (raised by a view, a worker
      body or the driver); `Interrupt` stands for a `BaseException` that is not an `Exception`
      (`KeyboardInterrupt`, `SystemExit`), which an `except Exception` clause does not catch. */
  datatype Error =
    | OperationalError(code: int)
    | DisconnectionError
    | AppError(name: string)
    | Interrupt

  /** Whether `except Exception` catches `e`. */
  predicate IsException(e: Error)
  {
    !e.Interrupt?
  }
}
