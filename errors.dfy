/** Python-level failure values shared by the model: the exceptions the core
    can raise, a value-or-exception result, and a pass-or-exception outcome. */
module Errors {

  /** The exceptions the modelled code raises. */
  datatype Exception =
    | KeyError        // a thread id with no binding in a proxy table
    | AttributeError  // an object without the attribute being read
    | NameError       // a name the module never imported

  datatype Option<T> = None | Some(value: T)

  /** The value of an expression, or the exception it raised. */
  datatype Result<T> = Ok(value: T) | Err(error: Exception)

  /** A statement that either completes or raises. */
  datatype Outcome = Pass | Fail(error: Exception)
}
