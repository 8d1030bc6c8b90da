/** Shared vocabulary of the FluxMod model: failure-carrying results for the
    Python exceptions the nodes raise, and the torch dtypes the nodes name. */
module Common {

  datatype Option<+T> = None | Some(value: T)

  /** The two Python exceptions the modelled code raises on its own account. */
  datatype Error =
    | KeyError(key: string)       // a lookup in one of the dtype tables missed
    | ValueError(literal: string) // `int()` rejected a piece of a layer list

  datatype Result<+T> = Ok(value: T) | Err(error: Error)

  /** The torch dtypes that occur in the loader and node code. */
  datatype DType =
    | Float32
    | BFloat16
    | Float16
    | Float8E4M3FN
    | Float8E5M2
}
