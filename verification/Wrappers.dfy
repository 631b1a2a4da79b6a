/** The two result types that stand for the source's Option and Result. */
module Wrappers {

  datatype Option<+T> = None | Some(value: T)

  /** An error value carries no text: no caller in the source looks at it. */
  datatype Result<+T> = Ok(value: T) | Err
}
