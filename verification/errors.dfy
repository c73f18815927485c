/** Go's `(value, error)` conventions, as values.

    A Go `error` that is `nil` is `None` in an `Option<Error>`; the model
    distinguishes only the two sentinel errors the breaker compares against
    and treats every other error as a message. */
module Errors {

  datatype Option<+T> = None | Some(value: T)

  datatype Result<+T> = Ok(value: T) | Err(error: Error)

  datatype Error =
    | CircuitBreakerOpen        // the package's sentinel `CircuitBreakerOpen`
    | TxFailed                  // go-redis `redis.TxFailedErr`: an optimistic transaction did not commit
    | Failure(message: string)  // any other error, such as one built with `fmt.Errorf`
}
