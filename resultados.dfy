/** Option and Result values used where the simulator either finds nothing or fails. */
module Resultados {
  datatype Option<+T> = None | Some(value: T)

  /** Success or failure; the resampler's and the entry points' failures are `Grade.Erro`. */
  datatype Result<+T, +E> = Ok(value: T) | Err(error: E)
}
