/** Finite sums over the reals: linearity, splitting and exchange of the order of summation. */
module RealSum {

  function Sum(n: nat, f: nat -> real): real {
    if n == 0 then 0.0 else Sum(n - 1, f) + f(n - 1)
  }

  lemma SumNone(f: nat -> real)
    ensures Sum(0, f) == 0.0
  {}

  lemma {:induction false} SumEqual(n: nat, f: nat -> real, g: nat -> real)
    requires forall i: nat :: i < n ==> f(i) == g(i)
    ensures Sum(n, f) == Sum(n, g)
  {
    if n > 0 {
      SumEqual(n - 1, f, g);
    }
  }

  lemma {:induction false} SumZero(n: nat, f: nat -> real)
    requires forall i: nat :: i < n ==> f(i) == 0.0
    ensures Sum(n, f) == 0.0
  {
    if n > 0 {
      SumZero(n - 1, f);
    }
  }

  /** h is f plus g, term by term. */
  lemma {:induction false} SumAdd(n: nat, f: nat -> real, g: nat -> real, h: nat -> real)
    requires forall i: nat :: i < n ==> h(i) == f(i) + g(i)
    ensures Sum(n, h) == Sum(n, f) + Sum(n, g)
  {
    if n > 0 {
      SumAdd(n - 1, f, g, h);
    }
  }

  lemma {:induction false} SumLess(n: nat, f: nat -> real, g: nat -> real)
    requires n > 0 && f(0) < g(0) && forall i: nat :: i < n ==> f(i) <= g(i)
    ensures Sum(n, f) < Sum(n, g)
  {
    if n == 1 {
      SumNone(f);
      SumNone(g);
    } else {
      SumLess(n - 1, f, g);
    }
  }

  lemma {:induction false} SumPositive(n: nat, f: nat -> real)
    requires n > 0 && forall i: nat :: i < n ==> f(i) > 0.0
    ensures Sum(n, f) > 0.0
  {
    if n == 1 {
      SumNone(f);
    } else {
      SumPositive(n - 1, f);
    }
  }

  /** g is c times f, term by term. */
  lemma {:induction false} SumScale(n: nat, c: real, f: nat -> real, g: nat -> real)
    requires forall i: nat :: i < n ==> g(i) == c * f(i)
    ensures Sum(n, g) == c * Sum(n, f)
  {
    if n > 0 {
      SumScale(n - 1, c, f, g);
      assert c * (Sum(n - 1, f) + f(n - 1)) == c * Sum(n - 1, f) + c * f(n - 1);
    }
  }

  lemma {:induction false} SumSplit(a: nat, b: nat, f: nat -> real)
    ensures Sum(a + b, f) == Sum(a, f) + Sum(b, (i: nat) => f(a + i))
  {
    if b > 0 {
      SumSplit(a, b - 1, f);
      SumEqual(b - 1, (i: nat) => f(a + i), (i: nat) => f(a + i));
    }
  }

  /** Row i of a table of terms, and the sum of each row; the same for columns. */
  function Row(f: (nat, nat) -> real, i: nat): nat -> real {
    (j: nat) => f(i, j)
  }

  function RowSums(m: nat, f: (nat, nat) -> real): nat -> real {
    (i: nat) => Sum(m, Row(f, i))
  }

  function Col(f: (nat, nat) -> real, j: nat): nat -> real {
    (i: nat) => f(i, j)
  }

  function ColSums(n: nat, f: (nat, nat) -> real): nat -> real {
    (j: nat) => Sum(n, Col(f, j))
  }

  /** Rows first or columns first. */
  lemma {:induction false} SumExchange(n: nat, m: nat, f: (nat, nat) -> real)
    ensures Sum(n, RowSums(m, f)) == Sum(m, ColSums(n, f))
  {
    if n == 0 {
      SumZero(m, ColSums(0, f));
    } else {
      SumExchange(n - 1, m, f);
      SumAdd(m, ColSums(n - 1, f), Row(f, n - 1), ColSums(n, f));
    }
  }

  /** Element i of a flat buffer; zero beyond its end. */
  function At(s: seq<real>, i: nat): real {
    if i < |s| then s[i] else 0.0
  }
}
