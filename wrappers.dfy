/** The outcome of an operation that the modelled Python code either completes
    or aborts by raising an exception. */
module Wrappers {

  datatype Result<+T, +E> = Ok(value: T) | Err(error: E)
}
