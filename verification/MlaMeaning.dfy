/**
 Latent attention as a textbook has it, on queries, key and value matrices and cached rows given head by
 head and row by row, and the host code on the flat buffers that they are laid out in.
 */
module MlaMeaning {
  import opened RealSum
  import opened Softmax
  import opened Buffers
  import opened Textbook
  import opened Mla
  import opened MlaHost

  /** A head: its query in two parts, and its key and value matrices, by rows over the latent space. */
  datatype Head = Head(plain: seq<real>, rotated: seq<real>, keys: seq<seq<real>>, values: seq<seq<real>>)

  predicate Fits(d: Dims, hs: seq<Head>) {
    |hs| == d.heads && forall h :: 0 <= h < |hs| ==> HeadFits(d, hs[h])
  }

  predicate HeadFits(d: Dims, x: Head) {
    |x.plain| == d.qk && |x.rotated| == d.r && |x.keys| == d.qk && Even(x.keys, d.l) && |x.values| == d.v && Even(x.values, d.l)
  }

  // ---------------------------------------------------------------------------------------------
  // The buffers
  // ---------------------------------------------------------------------------------------------

  function QueryOf(x: Head): seq<real> {
    x.plain + x.rotated
  }

  function Queries(hs: seq<Head>): seq<seq<real>> {
    seq(|hs|, h requires 0 <= h < |hs| => QueryOf(hs[h]))
  }

  function Matrices(hs: seq<Head>): seq<seq<seq<real>>> {
    seq(|hs|, h requires 0 <= h < |hs| => hs[h].keys + hs[h].values)
  }

  /** The query buffer: per head the unrotated part, then the rotated one. */
  function QueryBuffer(hs: seq<Head>): seq<real> {
    Flat(Queries(hs))
  }

  /** kv_b: per head the key rows, then the value rows. */
  function KvBuffer(hs: seq<Head>): seq<real> {
    Flat(Flat(Matrices(hs)))
  }

  lemma QueryIs(d: Dims, hs: seq<Head>, h: nat, i: nat)
    requires Fits(d, hs) && h < d.heads && i < d.qk + d.r
    ensures Query(d, QueryBuffer(hs), h, i) == if i < d.qk then hs[h].plain[i] else hs[h].rotated[i - d.qk]
  {
    FlatAt(Queries(hs), d.qk + d.r, h, i);
  }

  lemma MatrixRow(d: Dims, hs: seq<Head>, h: nat, y: nat, k: nat)
    requires Fits(d, hs) && h < d.heads && y < d.qk + d.v && k < d.l
    ensures Cell(KvBuffer(hs), d.l, h * (d.qk + d.v) + y, k) == if y < d.qk then hs[h].keys[y][k] else hs[h].values[y - d.qk][k]
  {
    hide Flat;
    var blocks := Matrices(hs);
    FlatAt(blocks, d.qk + d.v, h, y);
    FlatEven(blocks, d.l);
    FlatAt(Flat(blocks), d.l, h * (d.qk + d.v) + y, k);
  }

  lemma KeyIs(d: Dims, hs: seq<Head>, h: nat, i: nat, k: nat)
    requires Fits(d, hs) && h < d.heads && i < d.qk && k < d.l
    ensures Cell(KvBuffer(hs), d.l, KeyRow(d, h, i), k) == hs[h].keys[i][k]
  {
    MatrixRow(d, hs, h, i, k);
  }

  lemma ValueIs(d: Dims, hs: seq<Head>, h: nat, v: nat, k: nat)
    requires Fits(d, hs) && h < d.heads && v < d.v && k < d.l
    ensures Cell(KvBuffer(hs), d.l, ValueRow(d, h, v), k) == hs[h].values[v][k]
  {
    MatrixRow(d, hs, h, d.qk + v, k);
  }

  /** The folded buffers: per head the transposed key rows, and the value rows. */
  lemma FoldedRows(d: Dims, kts: seq<seq<seq<real>>>, vvs: seq<seq<seq<real>>>, h: nat, k: nat, i: nat, v: nat)
    requires |kts| == |vvs| == d.heads && h < d.heads && k < d.l && i < d.qk && v < d.v
    requires Even(kts, d.l) && Even(vvs, d.v) && Even(kts[h], d.qk) && Even(vvs[h], d.l)
    requires (forall y :: 0 <= y < d.heads ==> Even(kts[y], d.qk)) && forall y :: 0 <= y < d.heads ==> Even(vvs[y], d.l)
    ensures Cell(Flat(Flat(kts)), d.qk, KtRow(d, h, k), i) == kts[h][k][i]
    ensures Cell(Flat(Flat(vvs)), d.l, VRow(d, h, v), k) == vvs[h][v][k]
  {
    hide Flat;
    FlatEven(kts, d.qk);
    FlatEven(vvs, d.l);
    FlatAt(kts, d.l, h, k);
    FlatAt(Flat(kts), d.qk, KtRow(d, h, k), i);
    FlatAt(vvs, d.v, h, v);
    FlatAt(Flat(vvs), d.l, VRow(d, h, v), k);
  }

  // ---------------------------------------------------------------------------------------------
  // The textbook
  // ---------------------------------------------------------------------------------------------

  /** The score of a head for a cached row: query times key, both in two parts. */
  function ScoreOf(d: Dims, x: Head, c: seq<real>, p: seq<real>, scale: real): real
    requires HeadFits(d, x) && |c| == d.l && |p| == d.r
  {
    scale * (Dot(x.plain, Product(x.keys, c)) + Dot(x.rotated, p))
  }

  function ScoresOf(d: Dims, x: Head, cs: seq<seq<real>>, ps: seq<seq<real>>, scale: real): seq<real>
    requires HeadFits(d, x) && |cs| == |ps| && Even(cs, d.l) && Even(ps, d.r)
  {
    seq(|cs|, t requires 0 <= t < |cs| => ScoreOf(d, x, cs[t], ps[t], scale))
  }

  function Pooling(d: Dims, x: Head, a: seq<real>, cs: seq<seq<real>>, v: nat): nat -> real
    requires HeadFits(d, x) && Even(cs, d.l) && v < d.v && |a| == |cs|
  {
    (t: nat) => if t < |cs| then a[t] * Product(x.values, cs[t])[v] else 0.0
  }

  /** Element v of a head's output: the values of the cached rows, weighted by the softmax of the scores. */
  function OutputOf(d: Dims, exp: real -> real, x: Head, cs: seq<seq<real>>, ps: seq<seq<real>>, scale: real, v: nat): real
    requires HeadFits(d, x) && |cs| == |ps| && Even(cs, d.l) && Even(ps, d.r) && v < d.v
  {
    Sum(|cs|, Pooling(d, x, Weights(exp, ScoresOf(d, x, cs, ps, scale)), cs, v))
  }

  // ---------------------------------------------------------------------------------------------
  // The code computes it
  // ---------------------------------------------------------------------------------------------

  /** Cached rows in a buffer, from row t0 on. */
  lemma RowIs(rows: seq<seq<real>>, n: nat, t0: nat, t: nat, k: nat)
    requires Even(rows, n) && t0 + t < |rows| && k < n
    ensures Latents(Flat(rows), n, t0)(t)(k) == rows[t0 + t][k]
  {
    hide Flat, Latents;
    FlatAt(rows, n, t0 + t, k);
    LatentIs(Flat(rows), n, t0, t, k);
  }

  lemma LatentIs(s: seq<real>, n: nat, t0: nat, t: nat, k: nat)
    ensures Latents(s, n, t0)(t)(k) == At(s, (t0 + t) * n + k)
  {
    assert Latents(s, n, t0)(t) == CacheRow(s, n, t0 + t);
    assert CacheRow(s, n, t0 + t)(k) == Cell(s, n, t0 + t, k);
  }

  lemma KeyProduct(d: Dims, hs: seq<Head>, h: nat, y: nat, row: seq<real>, c: nat -> real, at: nat)
    requires Fits(d, hs) && h < d.heads && |row| == d.l && (forall k: nat :: k < d.l ==> c(k) == row[k])
    requires (at == KeyRow(d, h, y) && y < d.qk) || (at == ValueRow(d, h, y) && y < d.v)
    ensures Apply(Matrix(KvBuffer(hs), d.l), at, d.l, c) ==
            if at == KeyRow(d, h, y) && y < d.qk then Dot(hs[h].keys[y], row) else Dot(hs[h].values[y], row)
  {
    hide KvBuffer, KeyRow, ValueRow;
    var w := Matrix(KvBuffer(hs), d.l);
    var m := if at == KeyRow(d, h, y) && y < d.qk then hs[h].keys[y] else hs[h].values[y];
    forall k: nat | k < d.l
      ensures Products(w, at, c)(k) == Times(m, row)(k)
    {
      if at == KeyRow(d, h, y) && y < d.qk {
        KeyIs(d, hs, h, y, k);
      } else {
        ValueIs(d, hs, h, y, k);
      }
    }
    SumEqual(d.l, Products(w, at, c), Times(m, row));
  }

  lemma ScoreMeaning(d: Dims, hs: seq<Head>, h: nat, c: nat -> real, p: nat -> real, row: seq<real>, rope: seq<real>, scale: real)
    requires Fits(d, hs) && h < d.heads && |row| == d.l && |rope| == d.r
    requires (forall k: nat :: k < d.l ==> c(k) == row[k]) && (forall k: nat :: k < d.r ==> p(k) == rope[k])
    ensures Score(d, Matrix(KvBuffer(hs), d.l), QueryBuffer(hs), h, c, p, scale) == ScoreOf(d, hs[h], row, rope, scale)
  {
    hide KvBuffer, QueryBuffer, Query, Apply, Dot;
    var w, q, x := Matrix(KvBuffer(hs), d.l), QueryBuffer(hs), hs[h];
    forall i: nat | i < d.qk
      ensures KeyTerms(d, w, q, h, c)(i) == Times(x.plain, Product(x.keys, row))(i)
    {
      KeyProduct(d, hs, h, i, row, c, KeyRow(d, h, i));
      QueryIs(d, hs, h, i);
    }
    forall k: nat | k < d.r
      ensures RopeTerms(d, q, h, p)(k) == Times(x.rotated, rope)(k)
    {
      QueryIs(d, hs, h, d.qk + k);
    }
    SumEqual(d.qk, KeyTerms(d, w, q, h, c), Times(x.plain, Product(x.keys, row)));
    SumEqual(d.r, RopeTerms(d, q, h, p), Times(x.rotated, rope));
    DotIs(x.plain, Product(x.keys, row));
    DotIs(x.rotated, rope);
  }

  /** One head of the unabsorbed form over the rows t0 to t1 of the buffers is textbook attention over those rows. */
  lemma ContextMeaning(d: Dims, exp: real -> real, hs: seq<Head>, h: nat, v: nat, cs: seq<seq<real>>, ps: seq<seq<real>>,
                       t0: nat, t1: nat, scale: real)
    requires Fits(d, hs) && h < d.heads && v < d.v && Even(cs, d.l) && Even(ps, d.r) && t0 <= t1 <= |cs| == |ps|
    ensures Context(d, exp, Matrix(KvBuffer(hs), d.l), QueryBuffer(hs), h, v, Latents(Flat(cs), d.l, t0),
                    Latents(Flat(ps), d.r, t0), scale, t1 - t0) ==
            OutputOf(d, exp, hs[h], cs[t0..t1], ps[t0..t1], scale, v)
  {
    hide *;
    var w, q, c, p := Matrix(KvBuffer(hs), d.l), QueryBuffer(hs), Latents(Flat(cs), d.l, t0), Latents(Flat(ps), d.r, t0);
    var T, rows, ropes := t1 - t0, cs[t0..t1], ps[t0..t1];
    SliceEven(cs, d.l, t0, t1);
    SliceEven(ps, d.r, t0, t1);
    OneFits(d, hs, h);
    ScoresMeaning(d, hs, h, cs, ps, t0, t1, scale);
    var a := Weights(exp, ScoresOf(d, hs[h], rows, ropes, scale));
    forall t: nat | t < T
      ensures ValueTerms(d, w, a, h, v, c)(t) == Pooling(d, hs[h], a, rows, v)(t)
    {
      RowsAre(cs, d.l, t0, t);
      KeyProductValue(d, hs, h, v, rows[t], c(t));
      PoolingIs(d, hs[h], a, rows, v, t);
      ValueTermIs(d, w, a, h, v, c, t);
    }
    SumEqual(T, ValueTerms(d, w, a, h, v, c), Pooling(d, hs[h], a, rows, v));
    ContextIs(d, exp, w, q, h, v, c, p, scale, T);
    OutputIs(d, exp, hs[h], rows, ropes, scale, v);
  }

  lemma SliceEven(rows: seq<seq<real>>, n: nat, a: nat, b: nat)
    requires Even(rows, n) && a <= b <= |rows|
    ensures Even(rows[a..b], n)
  {}

  lemma OneFits(d: Dims, hs: seq<Head>, h: nat)
    requires Fits(d, hs) && h < d.heads
    ensures |hs| == d.heads && HeadFits(d, hs[h]) && |hs[h].values| == d.v && Even(hs[h].values, d.l)
  {}

  lemma PoolingIs(d: Dims, x: Head, a: seq<real>, cs: seq<seq<real>>, v: nat, t: nat)
    requires HeadFits(d, x) && Even(cs, d.l) && v < d.v && |a| == |cs| && t < |cs|
    ensures |x.values| == d.v && Even(x.values, d.l) && |cs[t]| == d.l
    ensures Pooling(d, x, a, cs, v)(t) == a[t] * Dot(x.values[v], cs[t])
  {}

  lemma ValueTermIs(d: Dims, w: (nat, nat) -> real, a: seq<real>, h: nat, v: nat, c: nat -> nat -> real, t: nat)
    requires t < |a|
    ensures ValueTerms(d, w, a, h, v, c)(t) == a[t] * Apply(w, ValueRow(d, h, v), d.l, c(t))
  {}

  lemma ContextIs(d: Dims, exp: real -> real, w: (nat, nat) -> real, q: seq<real>, h: nat, v: nat,
                  c: nat -> nat -> real, p: nat -> nat -> real, scale: real, T: nat)
    ensures Context(d, exp, w, q, h, v, c, p, scale, T) ==
            Sum(T, ValueTerms(d, w, Weights(exp, Scores(d, w, q, h, c, p, scale, T)), h, v, c))
  {}

  lemma OutputIs(d: Dims, exp: real -> real, x: Head, cs: seq<seq<real>>, ps: seq<seq<real>>, scale: real, v: nat)
    requires HeadFits(d, x) && |cs| == |ps| && Even(cs, d.l) && Even(ps, d.r) && v < d.v
    ensures |ScoresOf(d, x, cs, ps, scale)| == |cs|
    ensures OutputOf(d, exp, x, cs, ps, scale, v) ==
            Sum(|cs|, Pooling(d, x, Weights(exp, ScoresOf(d, x, cs, ps, scale)), cs, v))
  {}

  /** The scores of a head over the rows t0 to t1. */
  lemma ScoresMeaning(d: Dims, hs: seq<Head>, h: nat, cs: seq<seq<real>>, ps: seq<seq<real>>, t0: nat, t1: nat, scale: real)
    requires Fits(d, hs) && h < d.heads && Even(cs, d.l) && Even(ps, d.r) && t0 <= t1 <= |cs| == |ps|
    requires Even(cs[t0..t1], d.l) && Even(ps[t0..t1], d.r) && HeadFits(d, hs[h])
    ensures Scores(d, Matrix(KvBuffer(hs), d.l), QueryBuffer(hs), h, Latents(Flat(cs), d.l, t0), Latents(Flat(ps), d.r, t0),
                   scale, t1 - t0) ==
            ScoresOf(d, hs[h], cs[t0..t1], ps[t0..t1], scale)
  {
    hide KvBuffer, QueryBuffer, Score, ScoreOf, Latents, Flat, HeadFits;
    var w, q, c, p := Matrix(KvBuffer(hs), d.l), QueryBuffer(hs), Latents(Flat(cs), d.l, t0), Latents(Flat(ps), d.r, t0);
    forall t: nat | t < t1 - t0
      ensures Score(d, w, q, h, c(t), p(t), scale) == ScoreOf(d, hs[h], cs[t0 + t], ps[t0 + t], scale)
    {
      RowsAre(cs, d.l, t0, t);
      RowsAre(ps, d.r, t0, t);
      ScoreMeaning(d, hs, h, c(t), p(t), cs[t0 + t], ps[t0 + t], scale);
    }
  }

  lemma RowsAre(rows: seq<seq<real>>, n: nat, t0: nat, t: nat)
    requires Even(rows, n) && t0 + t < |rows|
    ensures forall k: nat :: k < n ==> Latents(Flat(rows), n, t0)(t)(k) == rows[t0 + t][k]
  {
    hide Latents, Flat;
    forall k: nat | k < n
      ensures Latents(Flat(rows), n, t0)(t)(k) == rows[t0 + t][k]
    {
      RowIs(rows, n, t0, t, k);
    }
  }

  lemma KeyProductValue(d: Dims, hs: seq<Head>, h: nat, v: nat, row: seq<real>, c: nat -> real)
    requires Fits(d, hs) && h < d.heads && v < d.v && |row| == d.l && forall k: nat :: k < d.l ==> c(k) == row[k]
    ensures Apply(Matrix(KvBuffer(hs), d.l), ValueRow(d, h, v), d.l, c) == Dot(hs[h].values[v], row)
  {
    hide KvBuffer;
    if d.qk > 0 {
      DistinctRows(d, h, v);
    }
    KeyProduct(d, hs, h, v, row, c, ValueRow(d, h, v));
  }

  lemma DistinctRows(d: Dims, h: nat, v: nat)
    requires d.qk > 0
    ensures ValueRow(d, h, v) != KeyRow(d, h, v)
  {}

  /**
   The host code on the buffers of some heads and cached rows: output x of head h is textbook attention of
   that head over the rows t0 to t1.
   */
  method AttendHeads(d: Dims, exp: real -> real, hs: seq<Head>, cs: seq<seq<real>>, ps: seq<seq<real>>, t0: nat, t1: nat,
                     scale: real) returns (ok: bool, ctx: seq<real>)
    requires Fits(d, hs) && Even(cs, d.l) && Even(ps, d.r) && t0 <= t1 <= |cs| == |ps| && Positive(exp)
    ensures ok <==> d.heads > 0 && d.qk > 0 && d.v > 0 && d.l > 0
    ensures ok ==> |ctx| == d.heads * d.v && forall h: nat, v: nat :: h < d.heads && v < d.v ==>
              Cell(ctx, d.v, h, v) == OutputOf(d, exp, hs[h], cs[t0..t1], ps[t0..t1], scale, v)
  {
    hide Context, OutputOf, KvBuffer, QueryBuffer, Latents, Cell;
    ok, ctx := AbsorbOne(d, exp, Matrix(KvBuffer(hs), d.l), QueryBuffer(hs), Flat(cs), Flat(ps), t0, t1, scale);
    if ok {
      forall h: nat, v: nat | h < d.heads && v < d.v
        ensures Cell(ctx, d.v, h, v) == OutputOf(d, exp, hs[h], cs[t0..t1], ps[t0..t1], scale, v)
      {
        ContextMeaning(d, exp, hs, h, v, cs, ps, t0, t1, scale);
      }
    }
  }

  /** A cached row of the joined cache: the latent row, then the rotated one, then anything. */
  predicate JoinedRow(d: Dims, row: seq<real>, c: seq<real>, p: seq<real>) {
    && |c| == d.l && |p| == d.r && d.l + d.r <= |row|
    && row[..d.l] == c && row[d.l..d.l + d.r] == p
  }

  lemma JoinedIs(d: Dims, rows: seq<seq<real>>, stride: nat, cs: seq<seq<real>>, ps: seq<seq<real>>)
    requires Even(rows, stride) && |rows| == |cs| == |ps| && Even(cs, d.l) && Even(ps, d.r)
    requires forall t :: 0 <= t < |rows| ==> JoinedRow(d, rows[t], cs[t], ps[t])
    ensures Joined(d, JoinedLatents(Flat(rows), stride), JoinedRopes(Flat(rows), stride, d.l), Latents(Flat(cs), d.l, 0),
                   Latents(Flat(ps), d.r, 0), |rows|)
  {
    hide Flat, Latents, JoinedLatents, JoinedRopes, Even, JoinedRow;
    forall t: nat, k: nat | t < |rows| && k < d.l
      ensures JoinedLatents(Flat(rows), stride)(t)(k) == Latents(Flat(cs), d.l, 0)(t)(k)
    {
      JoinedLatentIs(d, rows, stride, cs, ps, t, k);
    }
    forall t: nat, k: nat | t < |rows| && k < d.r
      ensures JoinedRopes(Flat(rows), stride, d.l)(t)(k) == Latents(Flat(ps), d.r, 0)(t)(k)
    {
      JoinedRopeIs(d, rows, stride, cs, ps, t, k);
    }
  }

  lemma JoinedLatentIs(d: Dims, rows: seq<seq<real>>, stride: nat, cs: seq<seq<real>>, ps: seq<seq<real>>, t: nat, k: nat)
    requires Even(rows, stride) && |rows| == |cs| == |ps| && Even(cs, d.l) && t < |rows| && k < d.l
    requires JoinedRow(d, rows[t], cs[t], ps[t])
    ensures JoinedLatents(Flat(rows), stride)(t)(k) == Latents(Flat(cs), d.l, 0)(t)(k)
  {
    hide Flat, Latents, JoinedLatents, JoinedRopes;
    assert |rows[t]| == stride;
    assert rows[t][..d.l][k] == rows[t][k];
    RowIs(cs, d.l, 0, t, k);
    FlatAt(rows, stride, t, k);
    JoinedAt(Flat(rows), stride, d.l, t, k);
  }

  lemma JoinedRopeIs(d: Dims, rows: seq<seq<real>>, stride: nat, cs: seq<seq<real>>, ps: seq<seq<real>>, t: nat, k: nat)
    requires Even(rows, stride) && |rows| == |cs| == |ps| && Even(ps, d.r) && t < |rows| && k < d.r
    requires JoinedRow(d, rows[t], cs[t], ps[t])
    ensures JoinedRopes(Flat(rows), stride, d.l)(t)(k) == Latents(Flat(ps), d.r, 0)(t)(k)
  {
    hide Flat, Latents, JoinedLatents, JoinedRopes;
    assert |rows[t]| == stride;
    assert rows[t][d.l..d.l + d.r][k] == rows[t][d.l + k];
    RowIs(ps, d.r, 0, t, k);
    FlatAt(rows, stride, t, d.l + k);
    JoinedAt(Flat(rows), stride, d.l, t, k);
  }

  lemma JoinedAt(s: seq<real>, stride: nat, l: nat, t: nat, k: nat)
    ensures JoinedLatents(s, stride)(t)(k) == At(s, t * stride + k)
    ensures JoinedRopes(s, stride, l)(t)(k) == At(s, t * stride + (l + k))
  {
    assert JoinedLatents(s, stride)(t) == CacheRow(s, stride, t);
    assert CacheRow(s, stride, t)(k) == Cell(s, stride, t, k);
    assert JoinedRopes(s, stride, l)(t)(k) == Cell(s, stride, t, l + k);
  }

  lemma KvSize(d: Dims, hs: seq<Head>)
    requires Fits(d, hs)
    ensures |KvBuffer(hs)| == d.heads * (d.qk + d.v) * d.l
  {
    hide Flat;
    FlatSize(Matrices(hs), d.qk + d.v);
    FlatEven(Matrices(hs), d.l);
    FlatSize(Flat(Matrices(hs)), d.l);
  }

  /** The absorbed form on the same heads and rows, folded first, over the joined cache: the same textbook attention. */
  method AttendAbsorbed(d: Dims, exp: real -> real, hs: seq<Head>, rows: seq<seq<real>>, stride: nat,
                        ghost cs: seq<seq<real>>, ghost ps: seq<seq<real>>, scale: real) returns (ctx: seq<real>)
    requires Fits(d, hs) && Even(rows, stride) && |rows| == |cs| == |ps| && Positive(exp)
    requires Even(cs, d.l) && Even(ps, d.r) && forall t :: 0 <= t < |rows| ==> JoinedRow(d, rows[t], cs[t], ps[t])
    ensures |ctx| == d.heads * d.v && forall h: nat, v: nat :: h < d.heads && v < d.v ==>
              Cell(ctx, d.v, h, v) == OutputOf(d, exp, hs[h], cs, ps, scale, v)
  {
    hide Context, AbsorbedContext, OutputOf, KvBuffer, QueryBuffer, Latents, Cell, Joined, Folded, Flat;
    hide JoinedLatents, JoinedRopes;
    KvSize(d, hs);
    var kt, vv := Fold(d, KvBuffer(hs));
    ctx := AbsorbAll(d, exp, Matrix(kt, d.qk), Matrix(vv, d.l), QueryBuffer(hs), Flat(rows), stride, |rows|, scale);
    JoinedIs(d, rows, stride, cs, ps);
    assert cs[0..|cs|] == cs && ps[0..|ps|] == ps;
    forall h: nat, v: nat | h < d.heads && v < d.v
      ensures Cell(ctx, d.v, h, v) == OutputOf(d, exp, hs[h], cs, ps, scale, v)
    {
      var w, q := Matrix(KvBuffer(hs), d.l), QueryBuffer(hs);
      var c, p := JoinedLatents(Flat(rows), stride), JoinedRopes(Flat(rows), stride, d.l);
      FormsAgree(d, exp, w, Matrix(kt, d.qk), Matrix(vv, d.l), q, h, v, c, p, scale, |rows|);
      ContextDependsOn(d, exp, w, q, h, v, c, p, Latents(Flat(cs), d.l, 0), Latents(Flat(ps), d.r, 0), scale, |rows|);
      ContextMeaning(d, exp, hs, h, v, cs, ps, 0, |rows|, scale);
    }
  }
}
