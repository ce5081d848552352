/** The success-or-failure value the scanner returns for each token. */
module Wrappers {
  datatype Result<+T, +E> = Ok(value: T) | Err(error: E)
}
