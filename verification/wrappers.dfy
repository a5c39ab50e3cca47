/** Values that may be absent. */
module Wrappers {
  datatype Option<+T> = None | Some(value: T)

  /** A count that may be absent, absent counting for nothing. */
  function OrZero(n: Option<nat>): nat
  {
    if n.Some? then n.value else 0
  }
}
