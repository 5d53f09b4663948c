/** Waits that double up to a cap, as the restart and the upload backoff do. */
module Doubling {
  function Pow2(n: nat): (p: nat)
    ensures p >= 1
  {
    if n == 0 then 1 else 2 * Pow2(n - 1)
  }

  function Min(a: nat, b: nat): (m: nat) {
    if a < b then a else b
  }

  lemma DoubleOnce(min: nat, max: nat, k: nat)
    requires 0 < min <= max
    ensures min * Pow2(k + 1) == 2 * (min * Pow2(k)) && min * Pow2(k) >= min
    ensures var c := Min(max, min * Pow2(k)); (if c * 2 > max then max else c * 2) == Min(max, min * Pow2(k + 1))
  {
    var p := Pow2(k);
    assert min * (2 * p) == 2 * (min * p);
  }
}
