/** Real-number helpers shared by the map simulations. */
module Reals {
  function Abs(x: real): (a: real)
    ensures a >= 0.0 && (a == x || a == -x)
  {
    if x < 0.0 then -x else x
  }
}
