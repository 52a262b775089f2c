/** Optional values and results with an error message, as the model's
    stand-ins for JavaScript's `null`/`undefined` and for thrown errors. */
module Wrappers {

  datatype Option<+T> = None | Some(value: T)

  /** `Failure(message)` stands for a thrown `Error(message)`. */
  datatype Result<+T> = Success(value: T) | Failure(message: string)
}
