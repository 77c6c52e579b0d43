/**
 The host code of both attention forms, over flat buffers: the unabsorbed loops, the load-time
 folding of kv_b, and the absorbed loops over the joined cache. Each computes its formula in Mla, and
 on the same data they give the same output.
 */
module MlaHost {
  import opened Arith
  import opened RealSum
  import opened Softmax
  import opened Mla

  /** A flat matrix with rows of n, as a function. */
  function Matrix(s: seq<real>, n: nat): (nat, nat) -> real {
    (y: nat, x: nat) => Cell(s, n, y, x)
  }

  /** The latent rows from t0 on, and the rotated rows beside them. */
  function Latents(latent: seq<real>, n: nat, t0: nat): nat -> nat -> real {
    (t: nat) => CacheRow(latent, n, t0 + t)
  }

  /** The rotated parts of a cache whose rows hold a latent row and then a rotated row. */
  function JoinedRopes(cache: seq<real>, stride: nat, l: nat): nat -> nat -> real {
    (t: nat) => (r: nat) => Cell(cache, stride, t, l + r)
  }

  /** An output buffer with rows of n holds the values of f. */
  ghost predicate Holds(s: seq<real>, rows: nat, n: nat, f: (nat, nat) -> real) {
    |s| == rows * n && forall h: nat, v: nat :: h < rows && v < n ==> Cell(s, n, h, v) == f(h, v)
  }

  lemma HoldsNothing(n: nat, f: (nat, nat) -> real)
    ensures Holds([], 0, n, f)
  {}

  /** Appending the next row. */
  lemma HoldsMore(s: seq<real>, rows: nat, n: nat, f: (nat, nat) -> real, row: seq<real>)
    requires Holds(s, rows, n, f) && |row| == n && forall v: nat :: v < n ==> row[v] == f(rows, v)
    ensures Holds(s + row, rows + 1, n, f)
  {
    assert (rows + 1) * n == rows * n + n;
    forall h: nat, v: nat | h < rows + 1 && v < n
      ensures Cell(s + row, n, h, v) == f(h, v)
    {
      if h < rows {
        DigitsBelow(n, h, v, rows);
        assert Cell(s + row, n, h, v) == Cell(s, n, h, v);
      }
    }
  }

  // ---------------------------------------------------------------------------------------------
  // The unabsorbed loops
  // ---------------------------------------------------------------------------------------------

  /** One projected element of a cached row. */
  method ProjectRow(w: (nat, nat) -> real, y: nat, n: nat, c: nat -> real) returns (kt: real)
    ensures kt == Apply(w, y, n, c)
  {
    kt := 0.0;
    var k := 0;
    while k < n
      invariant 0 <= k <= n && kt == Sum(k, Products(w, y, c))
    {
      kt := kt + w(y, k) * c(k);
      k := k + 1;
    }
  }

  method RopeDot(d: Dims, q: seq<real>, h: nat, p: nat -> real) returns (rd: real)
    ensures rd == Sum(d.r, RopeTerms(d, q, h, p))
  {
    rd := 0.0;
    var r := 0;
    while r < d.r
      invariant 0 <= r <= d.r && rd == Sum(r, RopeTerms(d, q, h, p))
    {
      rd := rd + Query(d, q, h, d.qk + r) * p(r);
      r := r + 1;
    }
  }

  method ScoreRow(d: Dims, w: (nat, nat) -> real, q: seq<real>, h: nat, c: nat -> real, p: nat -> real, scale: real)
    returns (s: real)
    ensures s == Score(d, w, q, h, c, p, scale)
  {
    hide Query, KeyRow;
    var dot := 0.0;
    var i := 0;
    while i < d.qk
      invariant 0 <= i <= d.qk && dot == Sum(i, KeyTerms(d, w, q, h, c))
    {
      var kt := ProjectRow(w, KeyRow(d, h, i), d.l, c);
      dot := dot + Query(d, q, h, i) * kt;
      i := i + 1;
    }
    var rd := RopeDot(d, q, h, p);
    s := scale * (dot + rd);
  }

  /** One head: scores of all rows, softmax, then the weighted sum of the projected values, row after row. */
  method Head(d: Dims, exp: real -> real, w: (nat, nat) -> real, q: seq<real>, h: nat, c: nat -> nat -> real,
              p: nat -> nat -> real, scale: real, T: nat) returns (ch: seq<real>)
    requires Positive(exp)
    ensures |ch| == d.v && forall v: nat :: v < d.v ==> ch[v] == Context(d, exp, w, q, h, v, c, p, scale, T)
  {
    hide Score, Weights, ValueTerms, Apply;
    var scores := [];
    var t := 0;
    while t < T
      invariant 0 <= t <= T && |scores| == t
      invariant forall j :: 0 <= j < t ==> scores[j] == Score(d, w, q, h, c(j), p(j), scale)
    {
      var s := ScoreRow(d, w, q, h, c(t), p(t), scale);
      scores := scores + [s];
      t := t + 1;
    }
    assert scores == Scores(d, w, q, h, c, p, scale, T);
    var a := SoftmaxByDivision(exp, scores);
    ch := seq(d.v, v => 0.0);
    t := 0;
    while t < T
      invariant 0 <= t <= T && |ch| == d.v
      invariant forall v: nat :: v < d.v ==> ch[v] == Sum(t, ValueTerms(d, w, a, h, v, c))
    {
      ch := AddValues(d, w, a, h, c, t, ch);
      t := t + 1;
    }
  }

  method AddValues(d: Dims, w: (nat, nat) -> real, a: seq<real>, h: nat, c: nat -> nat -> real, t: nat, ch0: seq<real>)
    returns (ch: seq<real>)
    requires |ch0| == d.v && t < |a| && forall v: nat :: v < d.v ==> ch0[v] == Sum(t, ValueTerms(d, w, a, h, v, c))
    ensures |ch| == d.v && forall v: nat :: v < d.v ==> ch[v] == Sum(t + 1, ValueTerms(d, w, a, h, v, c))
  {
    hide ValueRow, Apply;
    ch := ch0;
    var v := 0;
    while v < d.v
      invariant 0 <= v <= d.v && |ch| == d.v
      invariant forall x: nat :: x < d.v ==> ch[x] == Sum(if x < v then t + 1 else t, ValueTerms(d, w, a, h, x, c))
    {
      var vv := ProjectRow(w, ValueRow(d, h, v), d.l, c(t));
      assert ValueTerms(d, w, a, h, v, c)(t) == a[t] * vv;
      ch := ch[v := ch[v] + a[t] * vv];
      v := v + 1;
    }
  }

  /** absorb_one: all heads over the rows from t0 to t1. */
  method AbsorbOne(d: Dims, exp: real -> real, w: (nat, nat) -> real, q: seq<real>, latent: seq<real>, rope: seq<real>,
                   t0: nat, t1: nat, scale: real) returns (ok: bool, ctx: seq<real>)
    requires Positive(exp)
    ensures ok <==> d.heads > 0 && d.qk > 0 && d.v > 0 && d.l > 0
    ensures ok ==> Holds(ctx, d.heads, d.v, (h: nat, v: nat) =>
              Context(d, exp, w, q, h, v, Latents(latent, d.l, t0), Latents(rope, d.r, t0), scale,
                      if t1 > t0 then t1 - t0 else 0))
  {
    hide Context, Holds;
    ctx := [];
    if d.heads == 0 || d.qk == 0 || d.v == 0 || d.l == 0 {
      return false, ctx;
    }
    ok := true;
    var T := if t1 > t0 then t1 - t0 else 0;
    var c, p := Latents(latent, d.l, t0), Latents(rope, d.r, t0);
    ghost var f := (h: nat, v: nat) => Context(d, exp, w, q, h, v, c, p, scale, T);
    HoldsNothing(d.v, f);
    var h := 0;
    while h < d.heads
      invariant 0 <= h <= d.heads && Holds(ctx, h, d.v, f)
    {
      var ch := Head(d, exp, w, q, h, c, p, scale, T);
      HoldsMore(ctx, h, d.v, f, ch);
      ctx := ctx + ch;
      h := h + 1;
    }
    HoldsSame(ctx, d.heads, d.v, f, (h: nat, v: nat) =>
      Context(d, exp, w, q, h, v, Latents(latent, d.l, t0), Latents(rope, d.r, t0), scale, if t1 > t0 then t1 - t0 else 0));
  }

  lemma HoldsSame(s: seq<real>, rows: nat, n: nat, f: (nat, nat) -> real, g: (nat, nat) -> real)
    requires Holds(s, rows, n, f) && forall h: nat, v: nat :: h < rows && v < n ==> f(h, v) == g(h, v)
    ensures Holds(s, rows, n, g)
  {}

  // ---------------------------------------------------------------------------------------------
  // Folding kv_b at load time
  // ---------------------------------------------------------------------------------------------

  /** mla_absorb_kvb without quantisation: transposes the key rows and copies the value rows. */
  method Fold(d: Dims, kvb: seq<real>) returns (kt: seq<real>, vv: seq<real>)
    requires |kvb| == d.heads * (d.qk + d.v) * d.l
    ensures Folded(d, Matrix(kvb, d.l), Matrix(kt, d.qk), Matrix(vv, d.l))
  {
    hide KeyRow, ValueRow, Holds;
    kt, vv := [], [];
    ghost var k0, v0 := KeySource(d, kvb), ValueSource(d, kvb);
    HoldsNothing(d.qk, k0);
    HoldsNothing(d.l, v0);
    var h := 0;
    assert KtRow(d, 0, 0) == 0 && VRow(d, 0, 0) == 0;
    while h < d.heads
      invariant 0 <= h <= d.heads && Holds(kt, KtRow(d, h, 0), d.qk, k0) && Holds(vv, VRow(d, h, 0), d.l, v0)
    {
      var row := 0;
      while row < d.l
        invariant 0 <= row <= d.l && Holds(kt, KtRow(d, h, row), d.qk, k0)
      {
        var column := FoldKeyRow(d, kvb, h, row);
        HoldsMore(kt, KtRow(d, h, row), d.qk, k0, column);
        kt := kt + column;
        row := row + 1;
      }
      row := 0;
      while row < d.v
        invariant 0 <= row <= d.v && Holds(vv, VRow(d, h, row), d.l, v0)
      {
        var copy := CopyRow(d, kvb, h, row);
        HoldsMore(vv, VRow(d, h, row), d.l, v0, copy);
        vv := vv + copy;
        row := row + 1;
      }
      assert (h + 1) * d.l == h * d.l + d.l && (h + 1) * d.v == h * d.v + d.v;
      h := h + 1;
    }
    FoldedBySource(d, kvb, kt, vv);
  }

  /** Where element (y, x) of the folded matrices comes from. */
  function KeySource(d: Dims, kvb: seq<real>): (nat, nat) -> real {
    (y: nat, i: nat) => if d.l == 0 then 0.0 else Cell(kvb, d.l, KeyRow(d, y / d.l, i), y % d.l)
  }

  function ValueSource(d: Dims, kvb: seq<real>): (nat, nat) -> real {
    (y: nat, k: nat) => if d.v == 0 then 0.0 else Cell(kvb, d.l, ValueRow(d, y / d.v, y % d.v), k)
  }

  method FoldKeyRow(d: Dims, kvb: seq<real>, h: nat, k: nat) returns (column: seq<real>)
    requires k < d.l
    ensures |column| == d.qk && forall i: nat :: i < d.qk ==> column[i] == KeySource(d, kvb)(KtRow(d, h, k), i)
  {
    column := [];
    var i := 0;
    QuotientIs(d.l, KtRow(d, h, k), h, k);
    while i < d.qk
      invariant 0 <= i <= d.qk && |column| == i
      invariant forall j: nat :: j < i ==> column[j] == Cell(kvb, d.l, KeyRow(d, h, j), k)
    {
      column := column + [Cell(kvb, d.l, KeyRow(d, h, i), k)];
      i := i + 1;
    }
  }

  method CopyRow(d: Dims, kvb: seq<real>, h: nat, v: nat) returns (copy: seq<real>)
    requires v < d.v
    ensures |copy| == d.l && forall k: nat :: k < d.l ==> copy[k] == ValueSource(d, kvb)(VRow(d, h, v), k)
  {
    copy := [];
    var k := 0;
    QuotientIs(d.v, VRow(d, h, v), h, v);
    while k < d.l
      invariant 0 <= k <= d.l && |copy| == k
      invariant forall j: nat :: j < k ==> copy[j] == Cell(kvb, d.l, ValueRow(d, h, v), j)
    {
      copy := copy + [Cell(kvb, d.l, ValueRow(d, h, v), k)];
      k := k + 1;
    }
  }

  lemma FoldedBySource(d: Dims, kvb: seq<real>, kt: seq<real>, vv: seq<real>)
    requires Holds(kt, KtRow(d, d.heads, 0), d.qk, KeySource(d, kvb)) && Holds(vv, VRow(d, d.heads, 0), d.l, ValueSource(d, kvb))
    ensures Folded(d, Matrix(kvb, d.l), Matrix(kt, d.qk), Matrix(vv, d.l))
  {
    hide KeyRow, ValueRow, Cell;
    forall h: nat, k: nat, i: nat | h < d.heads && k < d.l && i < d.qk
      ensures Matrix(kt, d.qk)(KtRow(d, h, k), i) == Matrix(kvb, d.l)(KeyRow(d, h, i), k)
    {
      DigitsBelow(d.l, h, k, d.heads);
      QuotientIs(d.l, KtRow(d, h, k), h, k);
      assert Cell(kt, d.qk, KtRow(d, h, k), i) == KeySource(d, kvb)(KtRow(d, h, k), i);
    }
    forall h: nat, v: nat, k: nat | h < d.heads && v < d.v && k < d.l
      ensures Matrix(vv, d.l)(VRow(d, h, v), k) == Matrix(kvb, d.l)(ValueRow(d, h, v), k)
    {
      DigitsBelow(d.v, h, v, d.heads);
      QuotientIs(d.v, VRow(d, h, v), h, v);
      assert Cell(vv, d.l, VRow(d, h, v), k) == ValueSource(d, kvb)(VRow(d, h, v), k);
    }
  }

  // ---------------------------------------------------------------------------------------------
  // The absorbed loops
  // ---------------------------------------------------------------------------------------------

  method AbsorbQuery(d: Dims, kt: (nat, nat) -> real, q: seq<real>, h: nat) returns (qabs: seq<real>)
    ensures |qabs| == d.l && forall k: nat :: k < d.l ==> qabs[k] == Absorbed(d, kt, q, h, k)
  {
    hide Query, KtRow;
    qabs := [];
    var k := 0;
    while k < d.l
      invariant 0 <= k <= d.l && |qabs| == k && forall j: nat :: j < k ==> qabs[j] == Absorbed(d, kt, q, h, j)
    {
      var acc := 0.0;
      var i := 0;
      while i < d.qk
        invariant 0 <= i <= d.qk && acc == Sum(i, AbsorbTerms(d, kt, q, h, k))
      {
        acc := acc + kt(KtRow(d, h, k), i) * Query(d, q, h, i);
        i := i + 1;
      }
      qabs := qabs + [acc];
      k := k + 1;
    }
  }

  /** One running sum over the latent part and then the rotated part of a cache row. */
  method AbsorbedScoreRow(d: Dims, kt: (nat, nat) -> real, q: seq<real>, h: nat, qabs: seq<real>, c: nat -> real,
                          p: nat -> real, scale: real) returns (r: real)
    requires |qabs| == d.l && forall k: nat :: k < d.l ==> qabs[k] == Absorbed(d, kt, q, h, k)
    ensures r == AbsorbedScore(d, kt, q, h, c, p, scale)
  {
    hide Query, Absorbed;
    var s := 0.0;
    var i := 0;
    while i < d.l
      invariant 0 <= i <= d.l && s == Sum(i, LatentTerms(d, kt, q, h, c))
    {
      s := s + qabs[i] * c(i);
      i := i + 1;
    }
    i := 0;
    while i < d.r
      invariant 0 <= i <= d.r && s == Sum(d.l, LatentTerms(d, kt, q, h, c)) + Sum(i, RopeTerms(d, q, h, p))
    {
      s := s + Query(d, q, h, d.qk + i) * p(i);
      i := i + 1;
    }
    r := s * scale;
  }

  method PoolRows(d: Dims, a: seq<real>, c: nat -> nat -> real) returns (pooled: seq<real>)
    ensures |pooled| == d.l && forall k: nat :: k < d.l ==> pooled[k] == Pooled(|a|, a, c)(k)
  {
    pooled := seq(d.l, k => 0.0);
    var t := 0;
    while t < |a|
      invariant 0 <= t <= |a| && |pooled| == d.l
      invariant forall k: nat :: k < d.l ==> pooled[k] == Sum(t, PoolTerms(a, c, k))
    {
      var i := 0;
      while i < d.l
        invariant 0 <= i <= d.l && |pooled| == d.l
        invariant forall k: nat :: k < d.l ==> pooled[k] == Sum(if k < i then t + 1 else t, PoolTerms(a, c, k))
      {
        pooled := pooled[i := pooled[i] + a[t] * c(t)(i)];
        i := i + 1;
      }
      t := t + 1;
    }
  }

  method AbsorbedHead(d: Dims, exp: real -> real, kt: (nat, nat) -> real, wv: (nat, nat) -> real, q: seq<real>, h: nat,
                      c: nat -> nat -> real, p: nat -> nat -> real, scale: real, T: nat) returns (ch: seq<real>)
    requires Positive(exp)
    ensures |ch| == d.v && forall v: nat :: v < d.v ==> ch[v] == AbsorbedContext(d, exp, kt, wv, q, h, v, c, p, scale, T)
  {
    hide AbsorbedScore, Weights, Absorbed, VRow, Sum;
    var qabs := AbsorbQuery(d, kt, q, h);
    var scores := [];
    var t := 0;
    while t < T
      invariant 0 <= t <= T && |scores| == t
      invariant forall j :: 0 <= j < t ==> scores[j] == AbsorbedScore(d, kt, q, h, c(j), p(j), scale)
    {
      var s := AbsorbedScoreRow(d, kt, q, h, qabs, c(t), p(t), scale);
      scores := scores + [s];
      t := t + 1;
    }
    assert scores == AbsorbedScores(d, kt, q, h, c, p, scale, T);
    var a := SoftmaxByReciprocal(exp, scores);
    var pooled := PoolRows(d, a, c);
    ch := ApplyRows(d, wv, h, pooled, Pooled(T, a, c));
  }

  method ApplyRows(d: Dims, wv: (nat, nat) -> real, h: nat, pooled: seq<real>, ghost c: nat -> real) returns (ch: seq<real>)
    requires |pooled| == d.l && forall k: nat :: k < d.l ==> pooled[k] == c(k)
    ensures |ch| == d.v && forall v: nat :: v < d.v ==> ch[v] == Apply(wv, VRow(d, h, v), d.l, c)
  {
    hide VRow;
    ch := [];
    var v := 0;
    while v < d.v
      invariant 0 <= v <= d.v && |ch| == v && forall x: nat :: x < v ==> ch[x] == Apply(wv, VRow(d, h, x), d.l, c)
    {
      var acc := 0.0;
      var i := 0;
      while i < d.l
        invariant 0 <= i <= d.l && acc == Sum(i, Products(wv, VRow(d, h, v), c))
      {
        acc := acc + wv(VRow(d, h, v), i) * pooled[i];
        i := i + 1;
      }
      ch := ch + [acc];
      v := v + 1;
    }
  }

  /** cpu_mla_absorb: all heads over the joined cache. */
  method AbsorbAll(d: Dims, exp: real -> real, kt: (nat, nat) -> real, wv: (nat, nat) -> real, q: seq<real>,
                   cache: seq<real>, stride: nat, T: nat, scale: real) returns (ctx: seq<real>)
    requires Positive(exp)
    ensures Holds(ctx, d.heads, d.v, (h: nat, v: nat) =>
              AbsorbedContext(d, exp, kt, wv, q, h, v, JoinedLatents(cache, stride), JoinedRopes(cache, stride, d.l), scale, T))
  {
    hide AbsorbedContext, Holds;
    ctx := [];
    var c, p := JoinedLatents(cache, stride), JoinedRopes(cache, stride, d.l);
    ghost var f := (h: nat, v: nat) => AbsorbedContext(d, exp, kt, wv, q, h, v, c, p, scale, T);
    HoldsNothing(d.v, f);
    var h := 0;
    while h < d.heads
      invariant 0 <= h <= d.heads && Holds(ctx, h, d.v, f)
    {
      var ch := AbsorbedHead(d, exp, kt, wv, q, h, c, p, scale, T);
      HoldsMore(ctx, h, d.v, f, ch);
      ctx := ctx + ch;
      h := h + 1;
    }
    HoldsSame(ctx, d.heads, d.v, f, (h: nat, v: nat) =>
      AbsorbedContext(d, exp, kt, wv, q, h, v, JoinedLatents(cache, stride), JoinedRopes(cache, stride, d.l), scale, T));
  }

  function JoinedLatents(cache: seq<real>, stride: nat): nat -> nat -> real {
    (t: nat) => CacheRow(cache, stride, t)
  }

  // ---------------------------------------------------------------------------------------------
  // The same output from both
  // ---------------------------------------------------------------------------------------------

  /** The joined cache holds the latent rows and the rotated rows. */
  ghost predicate Joined(d: Dims, c: nat -> nat -> real, p: nat -> nat -> real, c': nat -> nat -> real, p': nat -> nat -> real,
                         T: nat)
  {
    && (forall t: nat, k: nat :: t < T && k < d.l ==> c(t)(k) == c'(t)(k))
    && (forall t: nat, r: nat :: t < T && r < d.r ==> p(t)(r) == p'(t)(r))
  }

  /** Only the first l elements of a cached row matter, and the first r of its rotated part. */
  lemma ScoreDependsOn(d: Dims, w: (nat, nat) -> real, q: seq<real>, h: nat, c: nat -> real, p: nat -> real,
                       c': nat -> real, p': nat -> real, scale: real)
    requires (forall k: nat :: k < d.l ==> c(k) == c'(k)) && forall r: nat :: r < d.r ==> p(r) == p'(r)
    ensures Score(d, w, q, h, c, p, scale) == Score(d, w, q, h, c', p', scale)
  {
    hide Query, KeyRow;
    forall i: nat | i < d.qk
      ensures KeyTerms(d, w, q, h, c)(i) == KeyTerms(d, w, q, h, c')(i)
    {
      SumEqual(d.l, Products(w, KeyRow(d, h, i), c), Products(w, KeyRow(d, h, i), c'));
    }
    hide Apply;
    SumEqual(d.qk, KeyTerms(d, w, q, h, c), KeyTerms(d, w, q, h, c'));
    SumEqual(d.r, RopeTerms(d, q, h, p), RopeTerms(d, q, h, p'));
  }

  lemma ContextDependsOn(d: Dims, exp: real -> real, w: (nat, nat) -> real, q: seq<real>, h: nat, v: nat,
                         c: nat -> nat -> real, p: nat -> nat -> real, c': nat -> nat -> real, p': nat -> nat -> real,
                         scale: real, T: nat)
    requires Joined(d, c, p, c', p', T)
    ensures Context(d, exp, w, q, h, v, c, p, scale, T) == Context(d, exp, w, q, h, v, c', p', scale, T)
  {
    hide Score, Weights, Sum, ValueRow;
    forall t: nat | t < T
      ensures Score(d, w, q, h, c(t), p(t), scale) == Score(d, w, q, h, c'(t), p'(t), scale)
      ensures Apply(w, ValueRow(d, h, v), d.l, c(t)) == Apply(w, ValueRow(d, h, v), d.l, c'(t))
    {
      ScoreDependsOn(d, w, q, h, c(t), p(t), c'(t), p'(t), scale);
      SumEqual(d.l, Products(w, ValueRow(d, h, v), c(t)), Products(w, ValueRow(d, h, v), c'(t)));
    }
    hide Apply;
    assert Scores(d, w, q, h, c, p, scale, T) == Scores(d, w, q, h, c', p', scale, T);
    var a := Weights(exp, Scores(d, w, q, h, c, p, scale, T));
    SumEqual(T, ValueTerms(d, w, a, h, v, c), ValueTerms(d, w, a, h, v, c'));
  }

  /**
   The two outputs are equal, element by element: the unabsorbed one over separate latent and rotated
   rows with kv_b, the absorbed one over the joined cache with the folded matrices.
   */
  lemma OutputsAgree(d: Dims, exp: real -> real, w: (nat, nat) -> real, kt: (nat, nat) -> real, wv: (nat, nat) -> real,
                     q: seq<real>, latent: seq<real>, rope: seq<real>, t0: nat, cache: seq<real>, stride: nat, T: nat,
                     scale: real, ctx: seq<real>, ctx': seq<real>)
    requires Folded(d, w, kt, wv)
    requires Joined(d, JoinedLatents(cache, stride), JoinedRopes(cache, stride, d.l), Latents(latent, d.l, t0),
                    Latents(rope, d.r, t0), T)
    requires Holds(ctx, d.heads, d.v, (h: nat, v: nat) =>
               Context(d, exp, w, q, h, v, Latents(latent, d.l, t0), Latents(rope, d.r, t0), scale, T))
    requires Holds(ctx', d.heads, d.v, (h: nat, v: nat) =>
               AbsorbedContext(d, exp, kt, wv, q, h, v, JoinedLatents(cache, stride), JoinedRopes(cache, stride, d.l), scale, T))
    ensures ctx == ctx'
  {
    hide Context, AbsorbedContext, Joined, Folded, Latents, JoinedRopes, JoinedLatents;
    forall h: nat, v: nat | h < d.heads && v < d.v
      ensures Cell(ctx, d.v, h, v) == Cell(ctx', d.v, h, v)
    {
      ContextDependsOn(d, exp, w, q, h, v, JoinedLatents(cache, stride), JoinedRopes(cache, stride, d.l),
                       Latents(latent, d.l, t0), Latents(rope, d.r, t0), scale, T);
      FormsAgree(d, exp, w, kt, wv, q, h, v, JoinedLatents(cache, stride), JoinedRopes(cache, stride, d.l), scale, T);
    }
    CellsDecide(ctx, ctx', d.heads, d.v);
  }

  lemma CellsDecide(s: seq<real>, s': seq<real>, rows: nat, n: nat)
    requires |s| == |s'| == rows * n
    requires forall h: nat, v: nat :: h < rows && v < n ==> Cell(s, n, h, v) == Cell(s', n, h, v)
    ensures s == s'
  {
    forall i | 0 <= i < |s|
      ensures s[i] == s'[i]
    {
      var h, v := i / n, i % n;
      assert i == h * n + v;
      MulMonotone(rows, h, n);
      assert Cell(s, n, h, v) == Cell(s', n, h, v);
    }
  }
}
