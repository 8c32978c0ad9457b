/** Option and Result, used for the places where the source returns `Option`, `Result`
    or panics (a panic is modelled as an `Err` carrying the panic message). */
module Wrappers {

  datatype Option<T> = None | Some(value: T)

  datatype Result<T, E> = Ok(value: T) | Err(error: E)
}
