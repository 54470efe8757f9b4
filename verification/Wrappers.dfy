/** Absent values and failed calls. */
module Wrappers {

  datatype Option<+T> = None | Some(value: T)

  /** `Err` stands for a thrown error, named by its cause. */
  datatype Result<+T, +E> = Ok(value: T) | Err(error: E)

}
