/** Value wrappers shared by the whole model. */
module Wrappers {

  /** A value that may be absent: JavaScript's `null` / `undefined`. */
  datatype Option<+T> = None | Some(value: T)

  /** How an awaited call ended for its caller: it returned a value, or it threw. */
  datatype Call<+T> = Returned(value: T) | Threw
}
