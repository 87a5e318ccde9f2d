/** Bit masks as the sets of their set bit positions. */
module Masks {

  /** The mask with its lowest n bits set. */
  function Below(n: nat): (r: set<nat>)
    ensures forall b :: b in r <==> 0 <= b < n
  {
    if n == 0 then {} else Below(n - 1) + {n - 1}
  }

  /** first_bit of the bits of `mask` below `k`: the highest one, or -1. */
  function HighestBelow(mask: set<nat>, k: nat): (r: int)
    ensures -1 <= r < k
    ensures r >= 0 ==> r in mask
    ensures forall j: nat :: r < j < k ==> j !in mask
  {
    if k == 0 then -1 else if k - 1 in mask then k - 1 else HighestBelow(mask, k - 1)
  }
}
