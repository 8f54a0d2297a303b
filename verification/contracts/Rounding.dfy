/** Rounding down, as integer division on chain does. */
module Rounding {

  lemma Quotient(x: nat, t: nat)
    requires t > 0
    ensures (x / t) * t <= x < (x / t + 1) * t
  {
    var q, r := x / t, x % t;
    assert x == t * q + r && 0 <= r < t;
    assert (q + 1) * t == q * t + t;
  }
}
