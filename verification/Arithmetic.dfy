/** Small facts about products and quotients, stated one at a time so that
    proofs can name the one they use. */
module Arithmetic {

  lemma Distribute(a: int, x: int, y: int)
    ensures a * (x + y) == a * x + a * y
  {
  }

  lemma Associate(a: int, x: int, y: int)
    ensures a * (x * y) == (a * x) * y
  {
  }

  lemma Commute(x: int, y: int)
    ensures x * y == y * x
  {
  }

  lemma NonNegativeProduct(p: int, m: int)
    requires p >= 0 && m >= 0
    ensures p * m >= 0
  {
  }

  lemma NonPositiveProduct(p: int, m: int)
    requires p > 0 && m <= 0
    ensures p * m <= 0
  {
  }

  lemma MultipleIsLarge(p: int, m: int)
    requires p > 0 && p * m > 0
    ensures p * m >= p
  {
    if m <= 0 {
      NonPositiveProduct(p, m);
    } else {
      Distribute(p, 1, m - 1);
      NonNegativeProduct(p, m - 1);
    }
  }

  lemma QuotientRemainder(x: int, m: int)
    requires m > 0
    ensures x == m * (x / m) + x % m
  {
  }

  lemma GapIsLarge(m: int, lo: int, hi: int)
    requires m >= 0 && lo < hi
    ensures m * hi >= m * lo + m
  {
    var d := hi - lo - 1;
    Distribute(m, lo, 1);
    Distribute(m, lo + 1, d);
    NonNegativeProduct(m, d);
  }

  lemma SameQuotient(m: int, q: int, r: int, q': int, r': int)
    requires m * q + r == m * q' + r' && 0 <= r < m && 0 <= r' < m
    ensures q == q' && r == r'
  {
    if q < q' {
      GapIsLarge(m, q, q');
    } else if q' < q {
      GapIsLarge(m, q', q);
    }
  }

  lemma UniqueDivision(x: int, m: int, q: int, r: int)
    requires x == m * q + r && 0 <= r < m
    ensures x / m == q && x % m == r
  {
    QuotientRemainder(x, m);
    SameQuotient(m, q, r, x / m, x % m);
  }
}
