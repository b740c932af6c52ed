/** Quotients of natural numbers by a divisor that is not a constant. */
module Division {
  lemma Quotient(x: nat, n: nat, d: nat)
    requires 1 <= d && n * d <= x
    ensures x < n * d + d <==> x / d == n
    ensures n <= x / d
  {
    var q, r := x / d, x % d;
    assert x == q * d + r;
    if q < n {
      assert (n - q) * d == n * d - q * d;
      Multiple(n - q, d);
    }
    if x < n * d + d {
      QuotientIsUnique(q, n, d, r, x - n * d);
    }
  }

  lemma QuotientIsUnique(p: int, q: int, d: nat, r: nat, s: nat)
    requires r < d && s < d && p * d + r == q * d + s
    ensures p == q
  {
    assert (p - q) * d == s - r;
    if p > q {
      Multiple(p - q, d);
    } else if q > p {
      assert (q - p) * d == r - s;
      Multiple(q - p, d);
    }
  }

  lemma Multiple(k: int, d: nat)
    requires k >= 1
    ensures k * d >= d
  {
  }
}
