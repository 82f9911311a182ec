/** Optional values and results with an error, used for Go's `(value, error)` returns and nil pointers. */
module Wrappers {

  datatype Option<+T> = None | Some(value: T)

  datatype Result<+T, +E> = Ok(value: T) | Err(error: E)
}

/** The error values that flow through the integration. */
module Errors {

  datatype Error =
    /** types.ResourceAlreadyExistsException: a model with that name exists already. */
    | ResourceAlreadyExists(message: string)
    /** Any other error returned by a service or raised by a client-side check. */
    | Failure(message: string)
    /** Every name tried for a new model collided (the Go code dereferences nil here). */
    | ModelNameExhausted(thingName: string)
}
