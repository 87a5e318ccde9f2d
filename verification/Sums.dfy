/** Sums over a row of counters, and what changing one counter does to the sum. */
module Sums {

  function Sum(w: seq<nat>): (r: nat)
  {
    if w == [] then 0 else Sum(w[..|w| - 1]) + w[|w| - 1]
  }

  /** Two rows that differ at most at `k` have sums that differ by what happens at `k`. */
  lemma {:induction false} SumChange(a: seq<nat>, b: seq<nat>, k: nat)
    requires |a| == |b| && k < |a|
    requires forall i :: 0 <= i < |a| && i != k ==> a[i] == b[i]
    ensures Sum(b) + a[k] == Sum(a) + b[k]
  {
    var n := |a| - 1;
    if k == n {
      assert a[..n] == b[..n];
    } else {
      SumChange(a[..n], b[..n], k);
    }
  }

  /** A sum is zero exactly when every entry is. */
  lemma {:induction false} SumZero(a: seq<nat>)
    ensures Sum(a) == 0 <==> forall i :: 0 <= i < |a| ==> a[i] == 0
  {
    if a != [] {
      var n := |a| - 1;
      SumZero(a[..n]);
      assert forall i :: 0 <= i < n ==> a[..n][i] == a[i];
    }
  }
}
