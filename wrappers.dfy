/** Optional values and settled promises, shared by every module of the model. */
module Wrappers {

  /** A value that may be absent: JavaScript's `null` / `undefined`. */
  datatype Option<+T> = None | Some(value: T)

  /** How an awaited call into code outside the model settled: it resolved
      with a value, or it rejected (the rejection reason is only logged by
      the application, so it is not carried). */
  datatype Reply<+T> = Resolved(value: T) | Rejected
}
