/** Quotients from a decomposition. */
module Division {

  lemma Quotient(x: int, n: int, q: int, r: int)
    requires n > 0 && x == n * q + r && 0 <= r < n
    ensures x / n == q && x % n == r
  {
    var t := x / n;
    assert n * (t - q) == r - x % n;
    assert t - q >= 1 ==> n * (t - q) >= n by { if t - q >= 1 { Grows(n, t - q); } }
    assert q - t >= 1 ==> n * (q - t) >= n by { if q - t >= 1 { Grows(n, q - t); } }
    assert n * (q - t) == -(n * (t - q));
  }

  lemma Grows(n: int, k: int)
    requires n > 0 && k >= 1
    ensures n * k >= n
  {
  }
}
