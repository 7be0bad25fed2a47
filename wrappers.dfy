/** Failure-carrying values shared by every module of the model. */
module Wrappers {

  datatype Option<+T> = None | Some(value: T)

  /** The exception classes the pipeline raises, each with the key or reason it names. */
  datatype Error =
    | NotImplemented(name: string)   // NotImplementedError: unknown strategy or QC preset
    | ValueError(reason: string)
    | FileNotFound(path: string)
    | KeyError(key: string)
    | TypeError(reason: string)
    | NameError(name: string)

  datatype Result<+T> = Ok(value: T) | Err(error: Error)

  /** A floating-point number as pandas stores it: a finite value or NaN. */
  datatype Float = Num(r: real) | NaN
}
