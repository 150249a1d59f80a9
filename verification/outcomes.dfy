/** Failure-carrying wrappers shared by every module of the model: the
    source's `None` returns become `Option`, its raised exceptions `Result`. */
module Outcomes {

  datatype Option<+T> = None | Some(value: T)

  datatype Result<+T, +E> = Ok(value: T) | Err(error: E)
}
