/** Quotients and remainders by a divisor that is not a constant. */
module Division {
  lemma DivUnique(n: int, w: int, q: int, m: int)
    requires w > 0 && n == w * q + m && 0 <= m < w
    ensures n / w == q && n % w == m
  {
    var d := n / w - q;
    assert n == w * (n / w) + n % w;
    assert w * d == m - n % w by { assert w * (n / w) - w * q == w * d; }
    AtLeastOnce(w, d);
  }

  lemma Parts(n: int, w: int)
    requires w > 0
    ensures n == w * (n / w) + n % w && 0 <= n % w < w
  {
  }

  lemma AtLeastOnce(w: int, d: int)
    requires w > 0
    ensures d >= 1 ==> w * d >= w
    ensures d <= -1 ==> w * d <= -w
  {
  }
}
