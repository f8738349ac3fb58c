/** Success-or-failure values, used both for the host's own errors and for
    the foreign call result (a returned value or a raised exception). */
module Wrappers {

  datatype Result<+T, +E> = Ok(value: T) | Err(error: E)

}
