/** The exceptions the Python program can raise while it builds the trees.
    None of them is caught: each one ends the whole run, so every operation
    below returns a Result and its callers pass an Err on unchanged. */
module Errors {

  datatype Error =
    | AssertionError    // a failed `assert(...)`
    | IndexError        // a list or string index out of range
    | KeyError          // a dictionary lookup of a missing key
    | ValueError        // a tuple unpacking of the wrong length

  datatype Result<+T> = Ok(value: T) | Err(error: Error)

  datatype Option<+T> = None | Some(value: T)
}
