/** Counting down to a limit, shared by the bounds of both power boards. */
module Timers {

  /** Steps left, at most, of a phase that ends once its timer has reached the limit: always at least one. */
  function Left(limit: nat, t: nat): nat {
    if t >= limit then 1 else limit - t
  }
}
