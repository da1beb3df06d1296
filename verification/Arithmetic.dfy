/** Facts about products and quotients, kept apart from the lemmas that use them. */
module Arithmetic {

  lemma MulMono(a: int, b: int, m: int)
    requires a <= b && 0 <= m
    ensures a * m <= b * m
  {
  }

  lemma ProductMono(a: int, b: int, c: int, d: int)
    requires 0 <= a <= c && 0 <= b <= d
    ensures a * b <= c * d
  {
    assert a * b <= c * b <= c * d;
  }

  lemma QuotientAtLeast(n: int, d: int, m: int)
    requires d >= 1 && m * d <= n
    ensures m <= n / d
  {
    var q := n / d;
    assert n < (q + 1) * d;
    if m > q { MulMono(q + 1, m, d); }
  }

  lemma QuotientPositive(n: int, d: int)
    requires 1 <= d <= n
    ensures n / d >= 1
  {
  }

  lemma Divides(n: int, d: int)
    requires d >= 1
    ensures (n * d) / d == n
  {
    var q := (n * d) / d;
    assert q * d <= n * d < (q + 1) * d;
    if q < n { MulMono(q + 1, n, d); }
    if q > n { MulMono(n + 1, q, d); }
  }
}
