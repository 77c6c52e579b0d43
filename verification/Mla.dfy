/**
 Multi-head latent attention in its two forms: with the key and value projections applied to every
 cached row, and with them absorbed into the query and the pooled row. Over the reals they agree.
 */
module Mla {
  import opened RealSum
  import opened Softmax

  // ---------------------------------------------------------------------------------------------
  // The layouts
  // ---------------------------------------------------------------------------------------------

  /** Sizes: heads, unrotated and rotated query parts, value part, latent rank. */
  datatype Dims = Dims(heads: nat, qk: nat, r: nat, v: nat, l: nat)

  /** Element x of row y of a flat matrix with rows of n. */
  function Cell(s: seq<real>, n: nat, y: nat, x: nat): real {
    At(s, y * n + x)
  }

  /** The query of a head: first the unrotated part, then the rotated one. */
  function Query(d: Dims, q: seq<real>, h: nat, i: nat): real {
    Cell(q, d.qk + d.r, h, i)
  }

  /** The rows of kv_b: per head the key rows, then the value rows. */
  function KeyRow(d: Dims, h: nat, i: nat): nat {
    h * (d.qk + d.v) + i
  }

  function ValueRow(d: Dims, h: nat, v: nat): nat {
    h * (d.qk + d.v) + d.qk + v
  }

  /** The rows of the folded matrices. */
  function KtRow(d: Dims, h: nat, k: nat): nat {
    h * d.l + k
  }

  function VRow(d: Dims, h: nat, v: nat): nat {
    h * d.v + v
  }

  // ---------------------------------------------------------------------------------------------
  // The unabsorbed form: project every cached row
  // ---------------------------------------------------------------------------------------------

  /** Row y of a matrix times a vector. */
  function Products(w: (nat, nat) -> real, y: nat, c: nat -> real): nat -> real {
    (k: nat) => w(y, k) * c(k)
  }

  function Apply(w: (nat, nat) -> real, y: nat, n: nat, c: nat -> real): real {
    Sum(n, Products(w, y, c))
  }

  function CacheRow(s: seq<real>, n: nat, t: nat): nat -> real {
    (k: nat) => Cell(s, n, t, k)
  }

  function KeyTerms(d: Dims, w: (nat, nat) -> real, q: seq<real>, h: nat, c: nat -> real): nat -> real {
    (i: nat) => Query(d, q, h, i) * Apply(w, KeyRow(d, h, i), d.l, c)
  }

  function RopeTerms(d: Dims, q: seq<real>, h: nat, p: nat -> real): nat -> real {
    (r: nat) => Query(d, q, h, d.qk + r) * p(r)
  }

  /** The score of a cached row c with rotated part p. */
  function Score(d: Dims, w: (nat, nat) -> real, q: seq<real>, h: nat, c: nat -> real, p: nat -> real, scale: real): real {
    scale * (Sum(d.qk, KeyTerms(d, w, q, h, c)) + Sum(d.r, RopeTerms(d, q, h, p)))
  }

  function Scores(d: Dims, w: (nat, nat) -> real, q: seq<real>, h: nat, c: nat -> nat -> real, p: nat -> nat -> real,
                  scale: real, T: nat): (s: seq<real>)
    ensures |s| == T
  {
    seq(T, t requires 0 <= t < T => Score(d, w, q, h, c(t), p(t), scale))
  }

  function ValueTerms(d: Dims, w: (nat, nat) -> real, a: seq<real>, h: nat, v: nat, c: nat -> nat -> real): nat -> real {
    (t: nat) => At(a, t) * Apply(w, ValueRow(d, h, v), d.l, c(t))
  }

  /** Element v of head h of the attention output. */
  function Context(d: Dims, exp: real -> real, w: (nat, nat) -> real, q: seq<real>, h: nat, v: nat,
                   c: nat -> nat -> real, p: nat -> nat -> real, scale: real, T: nat): real
  {
    Sum(T, ValueTerms(d, w, Weights(exp, Scores(d, w, q, h, c, p, scale, T)), h, v, c))
  }

  // ---------------------------------------------------------------------------------------------
  // The absorbed form: fold the projections into the query and the pooled row
  // ---------------------------------------------------------------------------------------------

  function AbsorbTerms(d: Dims, kt: (nat, nat) -> real, q: seq<real>, h: nat, k: nat): nat -> real {
    (i: nat) => kt(KtRow(d, h, k), i) * Query(d, q, h, i)
  }

  /** W_kt q, element k. */
  function Absorbed(d: Dims, kt: (nat, nat) -> real, q: seq<real>, h: nat, k: nat): real {
    Sum(d.qk, AbsorbTerms(d, kt, q, h, k))
  }

  function LatentTerms(d: Dims, kt: (nat, nat) -> real, q: seq<real>, h: nat, c: nat -> real): nat -> real {
    (k: nat) => Absorbed(d, kt, q, h, k) * c(k)
  }

  function AbsorbedScore(d: Dims, kt: (nat, nat) -> real, q: seq<real>, h: nat, c: nat -> real, p: nat -> real,
                         scale: real): real {
    (Sum(d.l, LatentTerms(d, kt, q, h, c)) + Sum(d.r, RopeTerms(d, q, h, p))) * scale
  }

  function AbsorbedScores(d: Dims, kt: (nat, nat) -> real, q: seq<real>, h: nat, c: nat -> nat -> real,
                          p: nat -> nat -> real, scale: real, T: nat): (s: seq<real>)
    ensures |s| == T
  {
    seq(T, t requires 0 <= t < T => AbsorbedScore(d, kt, q, h, c(t), p(t), scale))
  }

  function PoolTerms(a: seq<real>, c: nat -> nat -> real, k: nat): nat -> real {
    (t: nat) => At(a, t) * c(t)(k)
  }

  /** The pooled row: the cached rows weighted by the attention. */
  function Pooled(T: nat, a: seq<real>, c: nat -> nat -> real): nat -> real {
    (k: nat) => Sum(T, PoolTerms(a, c, k))
  }

  function AbsorbedContext(d: Dims, exp: real -> real, kt: (nat, nat) -> real, wv: (nat, nat) -> real, q: seq<real>,
                           h: nat, v: nat, c: nat -> nat -> real, p: nat -> nat -> real, scale: real, T: nat): real
  {
    Apply(wv, VRow(d, h, v), d.l, Pooled(T, Weights(exp, AbsorbedScores(d, kt, q, h, c, p, scale, T)), c))
  }

  // ---------------------------------------------------------------------------------------------
  // They agree
  // ---------------------------------------------------------------------------------------------

  /** w_kt is the transpose of the key rows of kv_b, w_v its value rows. */
  ghost predicate Folded(d: Dims, w: (nat, nat) -> real, kt: (nat, nat) -> real, wv: (nat, nat) -> real) {
    && (forall h: nat, k: nat, i: nat :: h < d.heads && k < d.l && i < d.qk ==> kt(KtRow(d, h, k), i) == w(KeyRow(d, h, i), k))
    && (forall h: nat, v: nat, k: nat :: h < d.heads && v < d.v && k < d.l ==> wv(VRow(d, h, v), k) == w(ValueRow(d, h, v), k))
  }

  lemma Commute(x: real, y: real)
    ensures x * y == y * x
  {}

  lemma Associate(x: real, w: real, y: real)
    ensures x * w * y == x * (w * y) && x * w * y == y * (w * x)
  {}

  /** x . (W y) == (W^T x) . y, given the two sums by their terms. */
  lemma Bilinear(n: nat, m: nat, x: nat -> real, w: (nat, nat) -> real, y: nat -> real, left: nat -> real, right: nat -> real,
                 rows: nat -> nat -> real, cols: nat -> nat -> real)
    requires forall i: nat :: i < n ==> left(i) == x(i) * Sum(m, rows(i))
    requires forall i: nat, k: nat :: i < n && k < m ==> rows(i)(k) == w(i, k) * y(k)
    requires forall k: nat :: k < m ==> right(k) == Sum(n, cols(k)) * y(k)
    requires forall i: nat, k: nat :: i < n && k < m ==> cols(k)(i) == w(i, k) * x(i)
    ensures Sum(n, left) == Sum(m, right)
  {
    var f := (i: nat, k: nat) => x(i) * w(i, k) * y(k);
    hide Sum;
    forall i: nat | i < n
      ensures left(i) == RowSums(m, f)(i)
    {
      forall k: nat | k < m
        ensures Row(f, i)(k) == x(i) * rows(i)(k)
      {
        Associate(x(i), w(i, k), y(k));
      }
      SumScale(m, x(i), rows(i), Row(f, i));
    }
    forall k: nat | k < m
      ensures right(k) == ColSums(n, f)(k)
    {
      forall i: nat | i < n
        ensures Col(f, k)(i) == y(k) * cols(k)(i)
      {
        Associate(x(i), w(i, k), y(k));
      }
      SumScale(n, y(k), cols(k), Col(f, k));
      Commute(y(k), Sum(n, cols(k)));
    }
    SumEqual(n, left, RowSums(m, f));
    SumEqual(m, right, ColSums(n, f));
    SumExchange(n, m, f);
  }

  /** (W_kt q) . c == q . (W_k c), so the scores agree. */
  lemma ScoresAgree(d: Dims, w: (nat, nat) -> real, kt: (nat, nat) -> real, wv: (nat, nat) -> real, q: seq<real>, h: nat,
                    c: nat -> real, p: nat -> real, scale: real)
    requires Folded(d, w, kt, wv) && h < d.heads
    ensures Score(d, w, q, h, c, p, scale) == AbsorbedScore(d, kt, q, h, c, p, scale)
  {
    hide Sum;
    KeysAgree(d, w, kt, wv, q, h, c);
    Commute(scale, Sum(d.l, LatentTerms(d, kt, q, h, c)) + Sum(d.r, RopeTerms(d, q, h, p)));
  }


  lemma KeysAgree(d: Dims, w: (nat, nat) -> real, kt: (nat, nat) -> real, wv: (nat, nat) -> real, q: seq<real>, h: nat,
                  c: nat -> real)
    requires Folded(d, w, kt, wv) && h < d.heads
    ensures Sum(d.qk, KeyTerms(d, w, q, h, c)) == Sum(d.l, LatentTerms(d, kt, q, h, c))
  {
    hide KeyRow, KtRow, Query, Sum;
    var x, m := (i: nat) => Query(d, q, h, i), (i: nat, k: nat) => w(KeyRow(d, h, i), k);
    var left, right := KeyTerms(d, w, q, h, c), LatentTerms(d, kt, q, h, c);
    var rows, cols := (i: nat) => Products(w, KeyRow(d, h, i), c), (k: nat) => AbsorbTerms(d, kt, q, h, k);
    forall i: nat | i < d.qk
      ensures left(i) == x(i) * Sum(d.l, rows(i))
    {
      assert rows(i) == Products(w, KeyRow(d, h, i), c);
    }
    forall i: nat, k: nat | i < d.qk && k < d.l
      ensures rows(i)(k) == m(i, k) * c(k)
    {
      assert rows(i) == Products(w, KeyRow(d, h, i), c);
      assert m(i, k) == w(KeyRow(d, h, i), k);
    }
    forall k: nat | k < d.l
      ensures right(k) == Sum(d.qk, cols(k)) * c(k)
    {
      assert cols(k) == AbsorbTerms(d, kt, q, h, k);
    }
    forall i: nat, k: nat | i < d.qk && k < d.l
      ensures cols(k)(i) == m(i, k) * x(i)
    {
      assert cols(k) == AbsorbTerms(d, kt, q, h, k);
      assert m(i, k) == kt(KtRow(d, h, k), i) && x(i) == Query(d, q, h, i);
    }
    Bilinear(d.qk, d.l, x, m, c, left, right, rows, cols);
  }

  /** W_v (sum a c) == sum a (W_v c). */
  lemma ValuesAgree(d: Dims, w: (nat, nat) -> real, kt: (nat, nat) -> real, wv: (nat, nat) -> real, a: seq<real>, h: nat,
                    v: nat, c: nat -> nat -> real, T: nat)
    requires Folded(d, w, kt, wv) && h < d.heads && v < d.v
    ensures Sum(T, ValueTerms(d, w, a, h, v, c)) == Apply(wv, VRow(d, h, v), d.l, Pooled(T, a, c))
  {
    hide ValueRow, VRow, At, Sum;
    var x, m, y := (t: nat) => At(a, t), (t: nat, k: nat) => c(t)(k), (k: nat) => w(ValueRow(d, h, v), k);
    var left, right := ValueTerms(d, w, a, h, v, c), Products(wv, VRow(d, h, v), Pooled(T, a, c));
    var rows, cols := (t: nat) => Products(w, ValueRow(d, h, v), c(t)), (k: nat) => PoolTerms(a, c, k);
    forall t: nat | t < T
      ensures left(t) == x(t) * Sum(d.l, rows(t))
    {
      assert rows(t) == Products(w, ValueRow(d, h, v), c(t));
    }
    forall t: nat, k: nat | t < T && k < d.l
      ensures rows(t)(k) == m(t, k) * y(k)
    {
      assert rows(t) == Products(w, ValueRow(d, h, v), c(t));
      assert m(t, k) == c(t)(k) && y(k) == w(ValueRow(d, h, v), k);
      Commute(m(t, k), y(k));
    }
    forall k: nat | k < d.l
      ensures right(k) == Sum(T, cols(k)) * y(k)
    {
      assert Pooled(T, a, c)(k) == Sum(T, cols(k)) && y(k) == wv(VRow(d, h, v), k);
      Commute(wv(VRow(d, h, v), k), Sum(T, cols(k)));
    }
    forall t: nat, k: nat | t < T && k < d.l
      ensures cols(k)(t) == m(t, k) * x(t)
    {
      assert cols(k) == PoolTerms(a, c, k);
      assert m(t, k) == c(t)(k) && x(t) == At(a, t);
      Commute(m(t, k), x(t));
    }
    Bilinear(T, d.l, x, m, y, left, right, rows, cols);
  }

  /** Both forms give the same output: every head, every element, every length and every scale. */
  lemma FormsAgree(d: Dims, exp: real -> real, w: (nat, nat) -> real, kt: (nat, nat) -> real, wv: (nat, nat) -> real,
                   q: seq<real>, h: nat, v: nat, c: nat -> nat -> real, p: nat -> nat -> real, scale: real, T: nat)
    requires Folded(d, w, kt, wv) && h < d.heads && v < d.v
    ensures Context(d, exp, w, q, h, v, c, p, scale, T) == AbsorbedContext(d, exp, kt, wv, q, h, v, c, p, scale, T)
  {
    hide Sum, Weights, Score, AbsorbedScore, Folded, Apply;
    forall t: nat | t < T
      ensures Score(d, w, q, h, c(t), p(t), scale) == AbsorbedScore(d, kt, q, h, c(t), p(t), scale)
    {
      ScoresAgree(d, w, kt, wv, q, h, c(t), p(t), scale);
    }
    var s := Scores(d, w, q, h, c, p, scale, T);
    assert s == AbsorbedScores(d, kt, q, h, c, p, scale, T);
    ValuesAgree(d, w, kt, wv, Weights(exp, s), h, v, c, T);
  }
}
