/** Facts about products, quotients and mixed-radix indices that the solver needs help with. */
module Arith {

  lemma MulMonotone(a: nat, b: nat, n: nat)
    ensures a <= b ==> a * n <= b * n
  {
    if a <= b {
      assert b * n == a * n + (b - a) * n;
    }
  }

  /** A smaller leading digit makes a smaller number. */
  lemma LeadingDigit(n: nat, a: nat, x: nat, b: nat, y: nat)
    ensures a < b && x < n ==> a * n + x < b * n + y
  {
    MulMonotone(a + 1, b, n);
    assert (a + 1) * n == a * n + n;
  }

  /** Two mixed-radix numbers with digits below n are equal only digit by digit. */
  lemma DigitsUnique(n: nat, a: nat, x: nat, b: nat, y: nat)
    requires x < n && y < n && a * n + x == b * n + y
    ensures a == b && x == y
  {
    LeadingDigit(n, a, x, b, y);
    LeadingDigit(n, b, y, a, x);
  }

  lemma DigitsBelow(n: nat, a: nat, x: nat, m: nat)
    requires x < n && a < m
    ensures a * n + x < m * n
  {
    LeadingDigit(n, a, x, m, 0);
  }

  /** Quotient and remainder are unique. */
  lemma QuotientIs(n: nat, x: nat, q: nat, r: nat)
    requires r < n && x == q * n + r
    ensures x / n == q && x % n == r
  {
    assert x == (x / n) * n + x % n;
    DigitsUnique(n, q, r, x / n, x % n);
  }
}
