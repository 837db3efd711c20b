/** Failure-carrying values used throughout the model.
    A Python function that raises is modelled as one returning `Error`,
    whose `message` is what `str(e)` of the raised exception would give. */
module Wrappers {

  datatype Option<+T> = None | Some(value: T)

  datatype Result<+T> = Ok(value: T) | Error(message: string)
}
