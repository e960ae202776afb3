/**
 * Option and Result, the two failure-carrying datatypes the model uses
 * for Python's `None` and for the exceptions the add-on raises.
 */
module Wrappers {

  datatype Option<+T> = None | Some(value: T)

  /** The error kinds raised by the modelled code. */
  datatype Error =
    | KeyError(key: string)            // a dictionary lookup on a missing key
    | AttributeError(attribute: string) // an attribute read on `None` or on a block without it
    | NifError(message: string)         // the add-on's own NifError
    | RaisedError(message: string)      // any other raise, e.g. `raise Exception(...)`

  datatype Result<+T> = Ok(value: T) | Err(error: Error)
}
