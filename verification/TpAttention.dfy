/**
 Window attention of one new token on one rank or split by heads over two ranks whose outputs are
 added. With unsharded weights and equal caches the two-rank result is the one-rank result.
 */
module TpAttention {
  import opened Arith
  import opened Results
  import opened RealSum
  import opened Softmax

  type Vec = seq<real>

  /** The weights of one layer, seen through the maps that the code applies. */
  class Layer {
    /** Input norm, query projection with its norm and its number of rows, key projection with its norm. */
    const norm: Vec -> Vec
    const query: Vec -> Vec
    const qRows: nat
    const key: Vec -> Vec
    /** Rotation of a query head and of a key row at a position. */
    const ropeQ: (Vec, nat) -> Vec
    const ropeK: (Vec, nat) -> Vec
    const exp: real -> real
    const scale: real
    const sink: Vec
    /** The rows of the two output matrices; the first has rows of woIn. */
    const woIn: nat
    const woA: seq<Vec>
    const woB: Option<seq<Vec>>

    constructor (norm: Vec -> Vec, query: Vec -> Vec, qRows: nat, key: Vec -> Vec, ropeQ: (Vec, nat) -> Vec,
                 ropeK: (Vec, nat) -> Vec,
                 exp: real -> real, scale: real, sink: Vec, woIn: nat, woA: seq<Vec>, woB: Option<seq<Vec>>)
      ensures this.norm == norm && this.query == query && this.qRows == qRows && this.key == key
      ensures this.ropeQ == ropeQ && this.ropeK == ropeK && this.exp == exp && this.scale == scale
      ensures this.sink == sink && this.woIn == woIn && this.woA == woA && this.woB == woB
    {
      this.norm, this.query, this.qRows, this.key, this.ropeQ, this.ropeK := norm, query, qRows, key, ropeQ, ropeK;
      this.exp, this.scale, this.sink, this.woIn, this.woA, this.woB := exp, scale, sink, woIn, woA, woB;
    }
  }

  /** The sizes of the call. */
  datatype Shape = Shape(heads: nat, headDim: nat)

  class KvCache {
    var keys: seq<Vec>
    var seeded: bool

    constructor (keys: seq<Vec>, seeded: bool)
      ensures this.keys == keys && this.seeded == seeded
    {
      this.keys, this.seeded := keys, seeded;
    }
  }

  // ---------------------------------------------------------------------------------------------
  // What attention computes
  // ---------------------------------------------------------------------------------------------

  /** The keys after the call: a seeded cache already holds the token's key. */
  function KeysAfter(w: Layer, x: Vec, pos: nat, keys: seq<Vec>, seeded: bool): seq<Vec> {
    if seeded && keys != [] then keys else keys + [w.ropeK(w.key(w.norm(x)), pos)]
  }

  /** The query buffer: at least one row per head. */
  function Queries(w: Layer, sh: Shape, x: Vec): Vec {
    var q := w.query(w.norm(x));
    if |q| >= sh.heads * sh.headDim then q else q + seq(sh.heads * sh.headDim - |q|, i => 0.0)
  }

  function Slice(s: Vec, from: nat, n: nat): Vec {
    seq(n, i requires 0 <= i < n => At(s, from + i))
  }

  function HeadQuery(w: Layer, sh: Shape, x: Vec, pos: nat, h: nat): Vec {
    w.ropeQ(Slice(Queries(w, sh, x), h * sh.headDim, sh.headDim), pos)
  }

  function DotTerms(a: Vec, b: Vec): nat -> real {
    (d: nat) => At(a, d) * At(b, d)
  }

  /** The scores of the keys, then the score of the sink. */
  function KeyScore(w: Layer, sh: Shape, q: Vec, k: Vec): real {
    Sum(sh.headDim, DotTerms(q, k)) * w.scale
  }

  function KeyScores(w: Layer, sh: Shape, q: Vec, keys: seq<Vec>): Vec {
    seq(|keys|, t requires 0 <= t < |keys| => KeyScore(w, sh, q, keys[t]))
  }

  /** The score of the sink with this index; beyond the sinks it is next to nothing. */
  function SinkScore(w: Layer, si: nat): real {
    if si < |w.sink| then w.sink[si] else -1000000000.0
  }

  function Scores(w: Layer, sh: Shape, q: Vec, keys: seq<Vec>, si: nat): Vec {
    KeyScores(w, sh, q, keys) + [SinkScore(w, si)]
  }

  /** Which sink head h uses in a call that starts at head `begin`: with sinks for all heads its own, otherwise they are
      counted from the start of the call. */
  function SinkIndex(w: Layer, sh: Shape, begin: nat, h: nat): nat
    requires begin <= h
  {
    if |w.sink| >= sh.heads then h else h - begin
  }

  /** The attention weight of key t; the sink takes its share of the denominator. */
  function Weight(exp: real -> real, s: Vec, t: nat): real
    requires s != []
  {
    var m := Largest(s);
    var den := Sum(|s|, Shifted(exp, s, m));
    if den > 0.0 then exp(At(s, t) - m) / den else 0.0
  }

  function PoolTerms(exp: real -> real, s: Vec, keys: seq<Vec>, d: nat): nat -> real
    requires s != []
  {
    (t: nat) => if t < |keys| then Weight(exp, s, t) * At(keys[t], d) else 0.0
  }

  /** Element d of the context of head h with sink si. */
  function HeadContext(w: Layer, sh: Shape, x: Vec, pos: nat, keys: seq<Vec>, h: nat, si: nat, d: nat): real {
    Sum(|keys|, PoolTerms(w.exp, Scores(w, sh, HeadQuery(w, sh, x, pos, h), keys, si), keys, d))
  }

  /** The output matrix is wide enough for all heads. */
  predicate FullOutput(w: Layer, sh: Shape) {
    w.woIn >= sh.heads * sh.headDim
  }

  /** The head whose context stands in place p of the buffer: a narrow output matrix has places for the call's heads only. */
  function HeadOf(w: Layer, sh: Shape, begin: nat, p: nat): nat {
    if FullOutput(w, sh) then p else begin + p
  }

  /** The context buffer after the heads begin .. begin + n. */
  function ContextAt(w: Layer, sh: Shape, x: Vec, pos: nat, keys: seq<Vec>, begin: nat, n: nat): nat -> real {
    (i: nat) =>
      if sh.headDim > 0 && begin <= HeadOf(w, sh, begin, i / sh.headDim) < begin + n then
        var h := HeadOf(w, sh, begin, i / sh.headDim);
        HeadContext(w, sh, x, pos, keys, h, SinkIndex(w, sh, begin, h), i % sh.headDim)
      else 0.0
  }

  function RowTerms(row: Vec, x: nat -> real): nat -> real {
    (i: nat) => x(i) * At(row, i)
  }

  /** A matrix with rows of n times a vector. */
  function Apply(rows: seq<Vec>, n: nat, x: nat -> real): Vec {
    seq(|rows|, o requires 0 <= o < |rows| => Sum(n, RowTerms(rows[o], x)))
  }

  function Vector(x: Vec): nat -> real {
    (i: nat) => At(x, i)
  }

  /** The output projection. */
  function Wo(w: Layer, ctx: nat -> real): Vec {
    var tmp := Apply(w.woA, w.woIn, ctx);
    match w.woB
    case None => tmp
    case Some(rows) => Apply(rows, |w.woA|, Vector(tmp))
  }

  /** One rank with all heads. */
  function Attention(w: Layer, sh: Shape, x: Vec, pos: nat, keys: seq<Vec>): Vec {
    Wo(w, ContextAt(w, sh, x, pos, keys, 0, sh.heads))
  }

  // ---------------------------------------------------------------------------------------------
  // The output projection is linear
  // ---------------------------------------------------------------------------------------------

  ghost predicate Adds(n: nat, a: nat -> real, b: nat -> real, c: nat -> real) {
    forall i: nat :: i < n ==> c(i) == a(i) + b(i)
  }

  function Add(a: Vec, b: Vec): Vec
    requires |a| == |b|
  {
    seq(|a|, i requires 0 <= i < |a| => a[i] + b[i])
  }

  lemma Distribute(x: real, y: real, z: real)
    ensures (x + y) * z == x * z + y * z
  {}

  lemma ApplyAdds(rows: seq<Vec>, n: nat, a: nat -> real, b: nat -> real, c: nat -> real)
    requires Adds(n, a, b, c)
    ensures Apply(rows, n, c) == Add(Apply(rows, n, a), Apply(rows, n, b))
  {
    forall o | 0 <= o < |rows|
      ensures Sum(n, RowTerms(rows[o], c)) == Sum(n, RowTerms(rows[o], a)) + Sum(n, RowTerms(rows[o], b))
    {
      forall i: nat | i < n
        ensures RowTerms(rows[o], c)(i) == RowTerms(rows[o], a)(i) + RowTerms(rows[o], b)(i)
      {
        Distribute(a(i), b(i), At(rows[o], i));
      }
      SumAdd(n, RowTerms(rows[o], a), RowTerms(rows[o], b), RowTerms(rows[o], c));
    }
  }

  lemma WoAdds(w: Layer, a: nat -> real, b: nat -> real, c: nat -> real)
    requires Adds(w.woIn, a, b, c)
    ensures |Wo(w, a)| == |Wo(w, b)| && Wo(w, c) == Add(Wo(w, a), Wo(w, b))
  {
    ApplyAdds(w.woA, w.woIn, a, b, c);
    if w.woB.Some? {
      ApplyAdds(w.woB.value, |w.woA|, Vector(Apply(w.woA, w.woIn, a)), Vector(Apply(w.woA, w.woIn, b)),
                Vector(Apply(w.woA, w.woIn, c)));
    }
  }

  /** Head half + hi uses in the second rank the sink score it uses in a call over all heads. */
  predicate SameSink(w: Layer, sh: Shape, hi: nat) {
    SinkScore(w, SinkIndex(w, sh, sh.heads / 2, sh.heads / 2 + hi)) == SinkScore(w, sh.heads / 2 + hi)
  }

  /** So do all its heads. With fewer sinks than heads the second rank counts them from its own first head. */
  ghost predicate SinksAgree(w: Layer, sh: Shape) {
    forall hi: nat :: hi < sh.heads - sh.heads / 2 ==> SameSink(w, sh, hi)
  }

  /** In terms of the sinks: there are enough for all heads, or those the two ranks count to are equal. */
  lemma SinksAgreeWhen(w: Layer, sh: Shape)
    ensures SinksAgree(w, sh) <==>
            |w.sink| >= sh.heads || (forall hi: nat :: hi < sh.heads - sh.heads / 2 ==> EqualSinks(w, sh, hi))
  {
    assert forall hi: nat :: hi < sh.heads - sh.heads / 2 && |w.sink| < sh.heads ==>
      (SameSink(w, sh, hi) <==> EqualSinks(w, sh, hi));
  }

  predicate EqualSinks(w: Layer, sh: Shape, hi: nat) {
    SinkScore(w, hi) == SinkScore(w, sh.heads / 2 + hi)
  }

  predicate SameScores(w: Layer, sh: Shape, q: Vec, keys: seq<Vec>, hi: nat) {
    Scores(w, sh, q, keys, SinkIndex(w, sh, sh.heads / 2, sh.heads / 2 + hi)) == Scores(w, sh, q, keys, sh.heads / 2 + hi)
  }

  /** The sinks agree exactly when all scores of the second rank, for any query and keys, are those of one rank. */
  lemma SinksDecide(w: Layer, sh: Shape, q: Vec, keys: seq<Vec>)
    ensures SinksAgree(w, sh) <==> forall hi: nat :: hi < sh.heads - sh.heads / 2 ==> SameScores(w, sh, q, keys, hi)
  {
    hide Scores, SinkScore, SinkIndex;
    forall hi: nat
      ensures SameScores(w, sh, q, keys, hi) <==> SameSink(w, sh, hi)
    {
      OneSink(w, sh, q, keys, SinkIndex(w, sh, sh.heads / 2, sh.heads / 2 + hi), sh.heads / 2 + hi);
    }
  }

  /** The scores differ exactly in the sink's. */
  lemma OneSink(w: Layer, sh: Shape, q: Vec, keys: seq<Vec>, si: nat, si': nat)
    ensures Scores(w, sh, q, keys, si) == Scores(w, sh, q, keys, si') <==> SinkScore(w, si) == SinkScore(w, si')
  {
    assert Scores(w, sh, q, keys, si)[|keys|] == SinkScore(w, si);
    assert Scores(w, sh, q, keys, si')[|keys|] == SinkScore(w, si');
  }

  /** The two ranks' head ranges add up to all heads. */
  lemma RangesAdd(w: Layer, sh: Shape, x: Vec, pos: nat, keys: seq<Vec>)
    requires FullOutput(w, sh) && SinksAgree(w, sh)
    ensures var half := sh.heads / 2;
            Adds(w.woIn, ContextAt(w, sh, x, pos, keys, 0, half), ContextAt(w, sh, x, pos, keys, half, sh.heads - half),
                 ContextAt(w, sh, x, pos, keys, 0, sh.heads))
  {
    hide HeadQuery, Scores, PoolTerms, Sum;
    var half := sh.heads / 2;
    var a, b, c := ContextAt(w, sh, x, pos, keys, 0, half), ContextAt(w, sh, x, pos, keys, half, sh.heads - half),
                   ContextAt(w, sh, x, pos, keys, 0, sh.heads);
    forall i: nat
      ensures c(i) == a(i) + b(i)
    {
      if sh.headDim > 0 && half <= i / sh.headDim < sh.heads {
        var h := i / sh.headDim;
        var hi: nat := h - half;
        assert SameSink(w, sh, hi);
        OneSink(w, sh, HeadQuery(w, sh, x, pos, h), keys, SinkIndex(w, sh, half, h), h);
      }
    }
  }

  /** The head ranges of the two ranks, projected and added, are the one-rank result; also for odd counts. */
  lemma RanksAdd(w: Layer, sh: Shape, x: Vec, pos: nat, keys: seq<Vec>)
    requires FullOutput(w, sh) && SinksAgree(w, sh)
    ensures var half := sh.heads / 2;
            var out0, out1 := Wo(w, ContextAt(w, sh, x, pos, keys, 0, half)),
                              Wo(w, ContextAt(w, sh, x, pos, keys, half, sh.heads - half));
            |out0| == |out1| && Add(out0, out1) == Attention(w, sh, x, pos, keys)
  {
    hide ContextAt, Wo;
    var half := sh.heads / 2;
    RangesAdd(w, sh, x, pos, keys);
    WoAdds(w, ContextAt(w, sh, x, pos, keys, 0, half), ContextAt(w, sh, x, pos, keys, half, sh.heads - half),
           ContextAt(w, sh, x, pos, keys, 0, sh.heads));
  }

  // ---------------------------------------------------------------------------------------------
  // The code
  // ---------------------------------------------------------------------------------------------

  method MatVec(rows: seq<Vec>, n: nat, x: Vec) returns (y: Vec)
    ensures y == Apply(rows, n, Vector(x))
  {
    y := [];
    var o := 0;
    while o < |rows|
      invariant 0 <= o <= |rows| && |y| == o
      invariant forall k :: 0 <= k < o ==> y[k] == Sum(n, RowTerms(rows[k], Vector(x)))
    {
      var s := 0.0;
      var i := 0;
      while i < n
        invariant 0 <= i <= n && s == Sum(i, RowTerms(rows[o], Vector(x)))
      {
        s := s + At(x, i) * At(rows[o], i);
        i := i + 1;
      }
      y := y + [s];
      o := o + 1;
    }
  }

  method Project(w: Layer, ctx: Vec) returns (out: Vec)
    ensures out == Wo(w, Vector(ctx))
  {
    var tmp := MatVec(w.woA, w.woIn, ctx);
    if w.woB.Some? {
      out := MatVec(w.woB.value, |w.woA|, tmp);
    } else {
      out := tmp;
    }
  }

  method ScoreKeys(w: Layer, sh: Shape, q: Vec, keys: seq<Vec>, si: nat) returns (scores: Vec)
    ensures scores == Scores(w, sh, q, keys, si)
  {
    scores := [];
    var t := 0;
    while t < |keys|
      invariant 0 <= t <= |keys| && |scores| == t
      invariant forall k :: 0 <= k < t ==> scores[k] == KeyScore(w, sh, q, keys[k])
    {
      var s := 0.0;
      var d := 0;
      while d < sh.headDim
        invariant 0 <= d <= sh.headDim && s == Sum(d, DotTerms(q, keys[t]))
      {
        s := s + At(q, d) * At(keys[t], d);
        d := d + 1;
      }
      scores := scores + [s * w.scale];
      t := t + 1;
    }
    assert scores == KeyScores(w, sh, q, keys);
    scores := scores + [if si < |w.sink| then w.sink[si] else -1000000000.0];
  }

  method Pool(w: Layer, sh: Shape, scores: Vec, keys: seq<Vec>) returns (ch: Vec)
    requires |scores| == |keys| + 1
    ensures |ch| == sh.headDim
    ensures forall d: nat :: d < sh.headDim ==> ch[d] == Sum(|keys|, PoolTerms(w.exp, scores, keys, d))
  {
    hide Largest, Shifted, Sum;
    forall d: nat | d < sh.headDim
      ensures Sum(0, PoolTerms(w.exp, scores, keys, d)) == 0.0
    {
      SumNone(PoolTerms(w.exp, scores, keys, d));
    }
    var m := LargestOf(scores);
    var e, den := Exponentials(w.exp, scores, m);
    ch := seq(sh.headDim, d => 0.0);
    var t := 0;
    while t < |keys|
      invariant 0 <= t <= |keys| && |ch| == sh.headDim
      invariant forall d: nat :: d < sh.headDim ==> ch[d] == Sum(t, PoolTerms(w.exp, scores, keys, d))
    {
      var a := if den > 0.0 then e[t] / den else 0.0;
      assert a == Weight(w.exp, scores, t);
      ch := AddRow(w, sh, scores, keys, t, a, ch);
      t := t + 1;
    }
  }

  method AddRow(w: Layer, sh: Shape, scores: Vec, keys: seq<Vec>, t: nat, a: real, ch0: Vec) returns (ch: Vec)
    requires scores != [] && t < |keys| && a == Weight(w.exp, scores, t) && |ch0| == sh.headDim
    requires forall d: nat :: d < sh.headDim ==> ch0[d] == Sum(t, PoolTerms(w.exp, scores, keys, d))
    ensures |ch| == sh.headDim
    ensures forall d: nat :: d < sh.headDim ==> ch[d] == Sum(t + 1, PoolTerms(w.exp, scores, keys, d))
  {
    hide Weight;
    ch := ch0;
    var d := 0;
    while d < sh.headDim
      invariant 0 <= d <= sh.headDim && |ch| == sh.headDim
      invariant forall k: nat :: k < sh.headDim ==> ch[k] == Sum(if k < d then t + 1 else t, PoolTerms(w.exp, scores, keys, k))
    {
      ch := ch[d := ch[d] + a * At(keys[t], d)];
      d := d + 1;
    }
  }

  method HeadOutput(w: Layer, sh: Shape, q: Vec, keys: seq<Vec>, si: nat) returns (ch: Vec)
    ensures |ch| == sh.headDim
    ensures forall d: nat :: d < sh.headDim ==> ch[d] == Sum(|keys|, PoolTerms(w.exp, Scores(w, sh, q, keys, si), keys, d))
  {
    hide PoolTerms, Sum;
    var scores := ScoreKeys(w, sh, q, keys, si);
    ch := Pool(w, sh, scores, keys);
  }

  /** attention_window_heads: the heads begin .. begin + n of the new token, projected to the output. */
  method AttentionHeads(w: Layer, sh: Shape, x: Vec, pos: nat, cache: KvCache, begin: nat, n: nat)
    returns (ok: bool, out: Vec)
    modifies cache
    ensures ok <==> sh.heads > 0 && sh.headDim > 0 && n > 0 && begin + n <= sh.heads && x != []
    ensures !ok ==> cache.keys == old(cache.keys) && cache.seeded == old(cache.seeded)
    ensures ok ==> cache.keys == KeysAfter(w, x, pos, old(cache.keys), old(cache.seeded))
    ensures ok ==> cache.seeded == (old(cache.seeded) && old(cache.keys) == [])
    ensures ok ==> out == Wo(w, ContextAt(w, sh, x, pos, cache.keys, begin, n))
  {
    hide Wo, ContextAt, Queries;
    out := [];
    if sh.heads == 0 || sh.headDim == 0 || n == 0 || begin + n > sh.heads || x == [] {
      return false, out;
    }
    ok := true;
    var q := w.query(w.norm(x));
    if |q| < sh.heads * sh.headDim {
      q := q + seq(sh.heads * sh.headDim - |q|, i => 0.0);
    }
    QueriesAre(w, sh, x, q);
    if cache.seeded && cache.keys != [] {
      cache.seeded := false;
    } else {
      cache.keys := cache.keys + [w.ropeK(w.key(w.norm(x)), pos)];
    }
    var ctx := ContextHeads(w, sh, x, pos, q, cache.keys, begin, n);
    out := Project(w, ctx);
    WoDependsOn(w, Vector(ctx), ContextAt(w, sh, x, pos, cache.keys, begin, n));
  }

  lemma QueriesAre(w: Layer, sh: Shape, x: Vec, q: Vec)
    requires var q0 := w.query(w.norm(x));
             q == if |q0| < sh.heads * sh.headDim then q0 + seq(sh.heads * sh.headDim - |q0|, i => 0.0) else q0
    ensures q == Queries(w, sh, x) && |q| >= sh.heads * sh.headDim
  {}

  lemma WoDependsOn(w: Layer, a: nat -> real, b: nat -> real)
    requires forall i: nat :: i < w.woIn ==> a(i) == b(i)
    ensures Wo(w, a) == Wo(w, b)
  {
    forall o | 0 <= o < |w.woA|
      ensures Sum(w.woIn, RowTerms(w.woA[o], a)) == Sum(w.woIn, RowTerms(w.woA[o], b))
    {
      SumEqual(w.woIn, RowTerms(w.woA[o], a), RowTerms(w.woA[o], b));
    }
    assert Apply(w.woA, w.woIn, a) == Apply(w.woA, w.woIn, b);
  }

  /** The context buffer: as long as the output matrix is wide or the heads are, whichever is more. */
  method ContextHeads(w: Layer, sh: Shape, x: Vec, pos: nat, q: Vec, keys: seq<Vec>, begin: nat, n: nat) returns (ctx: Vec)
    requires sh.headDim > 0 && begin + n <= sh.heads && q == Queries(w, sh, x) && |q| >= sh.heads * sh.headDim
    ensures forall i: nat :: i < w.woIn ==> Vector(ctx)(i) == ContextAt(w, sh, x, pos, keys, begin, n)(i)
  {
    hide Scores, PoolTerms, Queries, Sum, ContextAt, ContextIs;
    NoHeads(w, sh, x, pos, keys, begin, if w.woIn > sh.heads * sh.headDim then w.woIn else sh.heads * sh.headDim);
    var qn := sh.heads * sh.headDim;
    ctx := seq(if w.woIn > qn then w.woIn else qn, i => 0.0);
    var available := |q| / sh.headDim;
    Available(|q|, sh);
    var sharded := available < sh.heads;
    var full := w.woIn >= qn;
    var hi := 0;
    while hi < n
      invariant 0 <= hi <= n && |ctx| >= qn && |ctx| >= w.woIn
      invariant ContextIs(ctx, ContextAt(w, sh, x, pos, keys, begin, hi))
    {
      var h := begin + hi;
      var row := if sharded then hi else h;
      var si := if |w.sink| >= sh.heads then h else hi;
      var ch := HeadOutput(w, sh, w.ropeQ(Slice(q, row * sh.headDim, sh.headDim), pos), keys, si);
      var place := if full then h else hi;
      PlaceFits(place, sh);
      HeadPlaced(w, sh, x, pos, keys, begin, hi, ctx, ch);
      ctx := ctx[..place * sh.headDim] + ch + ctx[(place + 1) * sh.headDim..];
      hi := hi + 1;
    }
    ContextRead(ctx, ContextAt(w, sh, x, pos, keys, begin, n));
  }

  lemma ContextRead(ctx: Vec, f: nat -> real)
    ensures ContextIs(ctx, f) ==> forall i: nat :: i < |ctx| ==> Vector(ctx)(i) == f(i)
  {}

  lemma NoHeads(w: Layer, sh: Shape, x: Vec, pos: nat, keys: seq<Vec>, begin: nat, n: nat)
    ensures ContextIs(seq(n, i => 0.0), ContextAt(w, sh, x, pos, keys, begin, 0))
  {}

  ghost predicate ContextIs(ctx: Vec, f: nat -> real) {
    forall i: nat :: i < |ctx| ==> ctx[i] == f(i)
  }

  lemma Available(n: nat, sh: Shape)
    requires sh.headDim > 0 && n >= sh.heads * sh.headDim
    ensures n / sh.headDim >= sh.heads
  {
    var a := n / sh.headDim;
    assert n == a * sh.headDim + n % sh.headDim;
    assert (a + 1) * sh.headDim == a * sh.headDim + sh.headDim;
    MulMonotone(a + 1, sh.heads, sh.headDim);
  }

  /** Writing one more head's output at its place. */
  lemma HeadPlaced(w: Layer, sh: Shape, x: Vec, pos: nat, keys: seq<Vec>, begin: nat, hi: nat, ctx: Vec, ch: Vec)
    requires sh.headDim > 0 && begin + hi < sh.heads && |ctx| >= sh.heads * sh.headDim && |ch| == sh.headDim
    requires ContextIs(ctx, ContextAt(w, sh, x, pos, keys, begin, hi))
    requires forall d: nat :: d < sh.headDim ==>
      ch[d] == HeadContext(w, sh, x, pos, keys, begin + hi, SinkIndex(w, sh, begin, begin + hi), d)
    ensures var at := (if FullOutput(w, sh) then begin + hi else hi) * sh.headDim;
            at + sh.headDim <= |ctx| &&
            ContextIs(ctx[..at] + ch + ctx[at + sh.headDim..], ContextAt(w, sh, x, pos, keys, begin, hi + 1))
  {
    hide HeadContext, FullOutput;
    var p, n := if FullOutput(w, sh) then begin + hi else hi, sh.headDim;
    PlaceFits(p, sh);
    var at := p * n;
    var ctx' := ctx[..at] + ch + ctx[at + n..];
    forall i: nat | i < |ctx'|
      ensures ctx'[i] == ContextAt(w, sh, x, pos, keys, begin, hi + 1)(i)
    {
      InHead(i, p, n);
    }
  }

  lemma InHead(i: nat, h: nat, n: nat)
    requires n > 0
    ensures i / n == h <==> h * n <= i < h * n + n
    ensures i / n == h ==> i % n == i - h * n
  {
    assert i == (i / n) * n + i % n;
    if h * n <= i < h * n + n {
      QuotientIs(n, i, h, i - h * n);
    }
  }

  lemma PlaceFits(h: nat, sh: Shape)
    requires h < sh.heads
    ensures h * sh.headDim <= (h + 1) * sh.headDim <= sh.heads * sh.headDim && (h + 1) * sh.headDim == h * sh.headDim + sh.headDim
  {
    MulMonotone(h + 1, sh.heads, sh.headDim);
  }

  // ---------------------------------------------------------------------------------------------
  // Two ranks
  // ---------------------------------------------------------------------------------------------

  /** Adds the two outputs, over the shorter length, into both. */
  method AllreducePair(a0: Vec, b0: Vec) returns (a: Vec, b: Vec)
    ensures |a0| == |b0| ==> a == b == Add(a0, b0)
    ensures |a| == |a0| && |b| == |b0|
  {
    a, b := a0, b0;
    var n := if |a0| < |b0| then |a0| else |b0|;
    var i := 0;
    while i < n
      invariant 0 <= i <= n && |a| == |a0| && |b| == |b0|
      invariant forall k :: 0 <= k < i ==> a[k] == b[k] == a0[k] + b0[k]
      invariant forall k :: i <= k < n ==> a[k] == a0[k] && b[k] == b0[k]
    {
      var s := a[i] + b[i];
      a, b := a[i := s], b[i := s];
      i := i + 1;
    }
  }

  predicate FullWeights(w: Layer, sh: Shape) {
    FullOutput(w, sh) && w.qRows >= sh.heads * sh.headDim
  }

  /** The heads a rank computes: of which shape, from which head on, and how many. */
  datatype Plan = Plan(sh: Shape, begin: nat, n: nat)

  predicate IsSharded(w: Layer, sh: Shape) {
    var half := sh.heads / 2;
    half > 0 && (w.qRows == half * sh.headDim || w.woIn == half * sh.headDim)
  }

  /** All heads of a lone head, the heads of its own shard, or its half of the full weights. */
  function RankPlan(w: Layer, sh: Shape, rank: nat): Plan {
    var half := sh.heads / 2;
    var n := if rank == 0 then half else sh.heads - half;
    if half == 0 then Plan(sh, 0, sh.heads)
    else if IsSharded(w, sh) then Plan(sh.(heads := n), 0, n)
    else Plan(sh, if rank == 0 then 0 else half, n)
  }

  /** What a rank adds to the sum, given its cache after the call. */
  function RankOutput(w: Layer, sh: Shape, x: Vec, pos: nat, keys: seq<Vec>, rank: nat): Vec {
    var p := RankPlan(w, sh, rank);
    Wo(w, ContextAt(w, p.sh, x, pos, keys, p.begin, p.n))
  }

  lemma NotSharded(w: Layer, sh: Shape)
    requires FullWeights(w, sh) && sh.heads > 0 && sh.headDim > 0
    ensures !IsSharded(w, sh)
  {
    MulMonotone(sh.heads / 2 + 1, sh.heads, sh.headDim);
    assert (sh.heads / 2 + 1) * sh.headDim == sh.heads / 2 * sh.headDim + sh.headDim;
  }

  method RunRank(x: Vec, w: Layer, sh: Shape, pos: nat, cache: KvCache, rank: nat) returns (ok: bool, out: Vec)
    requires rank < 2
    modifies cache
    ensures ok <==> sh.heads > 0 && sh.headDim > 0 && x != []
    ensures ok ==> cache.keys == KeysAfter(w, x, pos, old(cache.keys), old(cache.seeded))
    ensures ok ==> out == RankOutput(w, sh, x, pos, cache.keys, rank)
  {
    hide Wo, ContextAt;
    var half := sh.heads / 2;
    var sharded := half > 0 && (w.qRows == half * sh.headDim || w.woIn == half * sh.headDim);
    if half == 0 {
      ok, out := AttentionHeads(w, sh, x, pos, cache, 0, sh.heads);
      return;
    }
    var n := if rank == 0 then half else sh.heads - half;
    var begin := if sharded || rank == 0 then 0 else half;
    ok, out := AttentionHeads(w, if sharded then sh.(heads := n) else sh, x, pos, cache, begin, n);
  }

  /** With full weights and agreeing sinks the two ranks' outputs are the one-rank output, or its two parts. */
  lemma FullRanks(w: Layer, sh: Shape, x: Vec, pos: nat, keys: seq<Vec>)
    requires FullWeights(w, sh) && SinksAgree(w, sh) && sh.heads > 0 && sh.headDim > 0
    ensures var out0, out1 := RankOutput(w, sh, x, pos, keys, 0), RankOutput(w, sh, x, pos, keys, 1);
            && |out0| == |out1|
            && if sh.heads < 2 then out0 == out1 == Attention(w, sh, x, pos, keys)
               else Add(out0, out1) == Attention(w, sh, x, pos, keys)
  {
    hide Wo, ContextAt, SinksAgree, FullOutput, IsSharded;
    NotSharded(w, sh);
    RanksAdd(w, sh, x, pos, keys);
  }

  /**
   attention_window_tp2. With two or more heads both outputs are the sum of what the ranks compute. When
   both have the full weights (one object stands for equal copies), agreeing sinks, equal inputs and equal
   caches, both outputs are the one-rank result, for odd head counts as well.
   */
  method AttentionTp2(x: Vec, peerX: Vec, primary: Layer, peer: Layer, sh: Shape, pos: nat, cache: KvCache, peerCache: KvCache)
    returns (ok: bool, out: Vec, peerOut: Vec)
    requires cache != peerCache
    modifies cache, peerCache
    ensures ok <==> sh.heads > 0 && sh.headDim > 0 && x != [] && peerX != []
    ensures ok ==> cache.keys == KeysAfter(primary, x, pos, old(cache.keys), old(cache.seeded))
    ensures ok ==> peerCache.keys == KeysAfter(peer, peerX, pos, old(peerCache.keys), old(peerCache.seeded))
    ensures ok ==>
              var out0 := RankOutput(primary, sh, x, pos, cache.keys, 0);
              var out1 := RankOutput(peer, sh, peerX, pos, peerCache.keys, 1);
              if sh.heads < 2 then out == out0 && peerOut == out1
              else |out0| == |out1| ==> out == peerOut == Add(out0, out1)
    ensures ok && x == peerX && primary == peer && FullWeights(primary, sh) && SinksAgree(primary, sh) &&
            old(cache.keys) == old(peerCache.keys) && old(cache.seeded) == old(peerCache.seeded) ==>
              cache.keys == peerCache.keys && out == peerOut == Attention(primary, sh, x, pos, cache.keys)
  {
    hide RankOutput, KeysAfter, FullWeights, SinksAgree, Attention;
    out, peerOut := [], [];
    if sh.heads == 0 || sh.headDim == 0 {
      return false, out, peerOut;
    }
    ok, out := RunRank(x, primary, sh, pos, cache, 0);
    if !ok {
      return;
    }
    ok, peerOut := RunRank(peerX, peer, sh, pos, peerCache, 1);
    if !ok {
      return;
    }
    if FullWeights(primary, sh) && SinksAgree(primary, sh) {
      FullRanks(primary, sh, x, pos, cache.keys);
    }
    if sh.heads >= 2 {
      out, peerOut := AllreducePair(out, peerOut);
    }
  }

  // ---------------------------------------------------------------------------------------------
  // Sinks that do not agree
  // ---------------------------------------------------------------------------------------------

  /** A layer with any sinks whose queries are zero and whose output is the first element of head h's context. */
  ghost predicate Probe(w: Layer, sh: Shape, h: nat) {
    && w.woIn == w.qRows == sh.heads * sh.headDim && w.woB == None
    && w.woA == [Unit(w.woIn, h * sh.headDim)]
    && (forall v :: w.query(v) == []) && (forall v, pos: nat :: w.ropeQ(v, pos) == v)
    && Positive(w.exp) && Increasing(w.exp)
  }

  ghost predicate Increasing(exp: real -> real) {
    forall x, y :: x < y ==> exp(x) < exp(y)
  }

  function Unit(n: nat, i: nat): Vec {
    seq(n, k => if k == i then 1.0 else 0.0)
  }

  lemma {:induction false} SumOnly(n: nat, f: nat -> real, i: nat)
    requires i < n && forall k: nat :: k < n && k != i ==> f(k) == 0.0
    ensures Sum(n, f) == f(i)
  {
    if i == n - 1 {
      SumZero(n - 1, f);
    } else {
      SumOnly(n - 1, f, i);
    }
  }

  /** The weight of one key of score zero beside a sink of score v. */
  function OneKeyWeight(exp: real -> real, v: real): real {
    Weight(exp, [0.0, v], 0)
  }

  lemma OneKeyShare(exp: real -> real, v: real)
    requires Positive(exp)
    ensures OneKeyWeight(exp, v) ==
            if v > 0.0 then exp(-v) / (exp(-v) + exp(0.0)) else exp(0.0) / (exp(0.0) + exp(v))
  {
    var s := [0.0, v];
    var m := if v > 0.0 then v else 0.0;
    assert s[..1] == [0.0];
    assert Largest(s) == m;
    var f := Shifted(exp, s, m);
    TwoTerms(f);
    assert f(0) == exp(0.0 - m) && f(1) == exp(v - m);
    assert 0.0 - v == -v && v - 0.0 == v && v - v == 0.0;
  }

  lemma TwoTerms(f: nat -> real)
    ensures Sum(1, f) == f(0) && Sum(2, f) == f(0) + f(1)
  {
    assert Sum(1, f) == Sum(0, f) + f(0);
    assert Sum(2, f) == Sum(1, f) + f(1);
  }

  /** The larger the sink's score, the smaller the weight of the key. */
  lemma SinkTakesMore(exp: real -> real, v: real, v': real)
    requires Positive(exp) && Increasing(exp) && v < v'
    ensures OneKeyWeight(exp, v) > OneKeyWeight(exp, v')
  {
    hide OneKeyWeight;
    OneKeyShare(exp, v);
    OneKeyShare(exp, v');
    var one := exp(0.0);
    if v' <= 0.0 {
      SmallerShare(one, exp(v), one, exp(v'));
    } else if v <= 0.0 {
      assert exp(v) <= one by { assert v == 0.0 || v < 0.0; }
      assert exp(-v') < one;
      SmallerShare(one, exp(v), exp(-v'), one);
    } else {
      assert exp(-v') < exp(-v);
      SmallerShare(exp(-v), one, exp(-v'), one);
    }
  }

  lemma SmallerShare(x: real, y: real, x': real, y': real)
    requires x > 0.0 && y > 0.0 && x' > 0.0 && y' > 0.0
    requires x >= x' && y <= y' && (x > x' || y < y')
    ensures x / (x + y) > x' / (x' + y')
  {
    var p, q, d, d' := x / (x + y), x' / (x' + y'), x + y, x' + y';
    assert p * d == x && q * d' == x';
    CrossLess(x, y, x', y');
    QuotientsLess(p, q, d, d', x, x');
  }

  lemma CrossLess(x: real, y: real, x': real, y': real)
    requires x > 0.0 && y > 0.0 && x' > 0.0 && y' > 0.0
    requires x >= x' && y <= y' && (x > x' || y < y')
    ensures x' * (x + y) < x * (x' + y')
  {
    var dx, dy := x - x', y' - y;
    ProductSign(dx, y);
    ProductSign(dy, x);
    Distribute(x', dx, y);
    Distribute(y, dy, x);
    Distribute(x, y, x');
    Distribute(x', y', x);
    Grows(x * y, x' * y, y' * x, dx * y, dy * x, x * x');
  }

  lemma Grows(xy: real, x'y: real, xy': real, a: real, b: real, xx': real)
    requires xy == x'y + a && xy' == xy + b && a >= 0.0 && b >= 0.0 && (a > 0.0 || b > 0.0)
    ensures xx' + x'y < xx' + xy'
  {}

  lemma ProductSign(a: real, b: real)
    requires a >= 0.0 && b >= 0.0
    ensures a * b >= 0.0 && (a > 0.0 && b > 0.0 ==> a * b > 0.0)
  {}

  lemma FactorSign(a: real, b: real)
    requires b > 0.0 && a * b > 0.0
    ensures a > 0.0
  {}

  lemma QuotientsLess(p: real, q: real, d: real, d': real, x: real, x': real)
    requires d > 0.0 && d' > 0.0 && p * d == x && q * d' == x' && x' * d < x * d'
    ensures q < p
  {
    var both := d * d';
    ProductSign(d, d');
    Reorder(q, d', d);
    Reorder(p, d, d');
    assert (p - q) * both == p * both - q * both;
    FactorSign(p - q, both);
  }

  lemma Reorder(a: real, b: real, c: real)
    ensures a * b * c == a * (b * c) == a * (c * b)
  {}

  /** A query of zeros gives every key the score zero. */
  lemma ZeroQuery(w: Layer, sh: Shape, x: Vec, pos: nat, h: nat, h': nat, k: Vec, si: nat)
    requires Probe(w, sh, h)
    ensures Scores(w, sh, HeadQuery(w, sh, x, pos, h'), [k], si) == [0.0, SinkScore(w, si)]
  {
    var q := HeadQuery(w, sh, x, pos, h');
    forall i: nat
      ensures At(Queries(w, sh, x), i) == 0.0
    {
    }
    forall d: nat | d < sh.headDim
      ensures DotTerms(q, k)(d) == 0.0
    {
      assert At(q, d) == 0.0;
    }
    SumZero(sh.headDim, DotTerms(q, k));
    assert KeyScore(w, sh, q, k) == 0.0;
  }

  lemma ProbeContext(w: Layer, sh: Shape, x: Vec, pos: nat, h: nat, h': nat, k: Vec, si: nat)
    requires Probe(w, sh, h) && At(k, 0) == 1.0
    ensures HeadContext(w, sh, x, pos, [k], h', si, 0) == OneKeyWeight(w.exp, SinkScore(w, si))
  {
    hide Probe, Weight, Scores, HeadQuery, SinkScore;
    ZeroQuery(w, sh, x, pos, h, h', k, si);
    var s := [0.0, SinkScore(w, si)];
    TwoTerms(PoolTerms(w.exp, s, [k], 0));
    assert PoolTerms(w.exp, s, [k], 0)(0) == Weight(w.exp, s, 0) * 1.0;
  }

  /** Such a layer puts out one number, that of its head. */
  lemma ProbeOutput(w: Layer, sh: Shape, h: nat, c: nat -> real)
    requires Probe(w, sh, h) && h < sh.heads && sh.headDim > 0
    ensures Wo(w, c) == [c(h * sh.headDim)]
  {
    var i, n := h * sh.headDim, w.woIn;
    DigitsBelow(sh.headDim, h, 0, sh.heads);
    var f := RowTerms(Unit(n, i), c);
    assert f(i) == c(i) * 1.0;
    assert forall k: nat :: k < n && k != i ==> f(k) == c(k) * 0.0;
    SumOnly(n, f, i);
    assert Wo(w, c) == [Sum(n, f)];
  }

  /** The first element of head h's place in the context of a call that starts at `begin`. */
  lemma PlaceOf(w: Layer, sh: Shape, x: Vec, pos: nat, keys: seq<Vec>, begin: nat, n: nat, h: nat)
    requires FullOutput(w, sh) && sh.headDim > 0
    ensures ContextAt(w, sh, x, pos, keys, begin, n)(h * sh.headDim) ==
            if begin <= h < begin + n then HeadContext(w, sh, x, pos, keys, h, SinkIndex(w, sh, begin, h), 0) else 0.0
  {
    hide HeadContext, SinkIndex, FullOutput;
    QuotientIs(sh.headDim, h * sh.headDim, h, 0);
  }

  /** What such a layer puts out for a call over some of the heads. */
  lemma ProbeCall(w: Layer, sh: Shape, x: Vec, pos: nat, k: Vec, h: nat, begin: nat, n: nat)
    requires Probe(w, sh, h) && h < sh.heads && sh.headDim > 0 && At(k, 0) == 1.0
    ensures Wo(w, ContextAt(w, sh, x, pos, [k], begin, n)) ==
            [if begin <= h < begin + n then OneKeyWeight(w.exp, SinkScore(w, SinkIndex(w, sh, begin, h))) else 0.0]
  {
    hide *;
    ProbeSizes(w, sh, h);
    ProbeOutput(w, sh, h, ContextAt(w, sh, x, pos, [k], begin, n));
    PlaceOf(w, sh, x, pos, [k], begin, n, h);
    if begin <= h < begin + n {
      ProbeContext(w, sh, x, pos, h, h, k, SinkIndex(w, sh, begin, h));
    }
  }

  lemma ProbeSizes(w: Layer, sh: Shape, h: nat)
    requires Probe(w, sh, h)
    ensures FullOutput(w, sh) && FullWeights(w, sh)
  {}

  lemma OneRank(w: Layer, sh: Shape, x: Vec, pos: nat, keys: seq<Vec>)
    ensures Attention(w, sh, x, pos, keys) == Wo(w, ContextAt(w, sh, x, pos, keys, 0, sh.heads))
  {}

  lemma FullRank(w: Layer, sh: Shape, x: Vec, pos: nat, keys: seq<Vec>, rank: nat)
    requires FullWeights(w, sh) && sh.heads >= 2 && sh.headDim > 0 && rank < 2
    ensures var half := sh.heads / 2;
            RankOutput(w, sh, x, pos, keys, rank) ==
            Wo(w, if rank == 0 then ContextAt(w, sh, x, pos, keys, 0, half)
                  else ContextAt(w, sh, x, pos, keys, half, sh.heads - half))
  {
    hide ContextAt, Wo, IsSharded;
    NotSharded(w, sh);
  }

  lemma WholeSinkIndex(w: Layer, sh: Shape, h: nat)
    ensures SinkIndex(w, sh, 0, h) == h
  {}

  /** The output of the two ranks is that of one rank exactly when this head's sinks agree. */
  lemma ProbeDecides(w: Layer, sh: Shape, x: Vec, pos: nat, k: Vec, hi: nat)
    requires sh.heads >= 2 && sh.headDim > 0 && hi < sh.heads - sh.heads / 2 && At(k, 0) == 1.0
    requires Probe(w, sh, sh.heads / 2 + hi)
    ensures FullWeights(w, sh) && |Attention(w, sh, x, pos, [k])| == 1
    ensures var out0, out1 := RankOutput(w, sh, x, pos, [k], 0), RankOutput(w, sh, x, pos, [k], 1);
            |out0| == |out1| == 1 && (Add(out0, out1) == Attention(w, sh, x, pos, [k]) <==> SameSink(w, sh, hi))
  {
    hide ContextAt, Wo, Probe, SinkScore, SinkIndex, RankOutput, FullWeights, OneKeyWeight, Attention;
    var half := sh.heads / 2;
    var h := half + hi;
    ProbeSizes(w, sh, h);
    ProbeCall(w, sh, x, pos, k, h, 0, half);
    ProbeCall(w, sh, x, pos, k, h, half, sh.heads - half);
    ProbeCall(w, sh, x, pos, k, h, 0, sh.heads);
    OneRank(w, sh, x, pos, [k]);
    FullRank(w, sh, x, pos, [k], 0);
    FullRank(w, sh, x, pos, [k], 1);
    WholeSinkIndex(w, sh, h);
    var a, b := OneKeyWeight(w.exp, SinkScore(w, SinkIndex(w, sh, half, h))), OneKeyWeight(w.exp, SinkScore(w, h));
    AddOne(a, b);
    WeightsDecide(w, sh, h, SinkScore(w, SinkIndex(w, sh, half, h)), SinkScore(w, h));
  }

  lemma AddOne(a: real, b: real)
    ensures Add([0.0], [a]) == [b] <==> a == b
  {
    assert Add([0.0], [a])[0] == a && [b][0] == b;
    if a == b {
      assert Add([0.0], [a]) == [b];
    }
  }

  lemma WeightsDecide(w: Layer, sh: Shape, h: nat, v: real, v': real)
    requires Probe(w, sh, h)
    ensures OneKeyWeight(w.exp, v) == OneKeyWeight(w.exp, v') <==> v == v'
  {
    if v < v' {
      SinkTakesMore(w.exp, v, v');
    } else if v' < v {
      SinkTakesMore(w.exp, v', v);
    }
  }

  /**
   For every number of heads from two on, every size of heads, every list of sinks, and every head of the
   second rank, a layer at which both calls are made: their outputs are equal exactly when this head's
   sinks agree.
   */
  method CompareRanks(sh: Shape, sink: Vec, exp: real -> real, pos: nat, hi: nat) returns (w: Layer, one: Vec, two: Vec)
    requires sh.heads >= 2 && sh.headDim > 0 && hi < sh.heads - sh.heads / 2 && Positive(exp) && Increasing(exp)
    ensures w.sink == sink && FullWeights(w, sh) && |one| == |two| == 1
    ensures one == two <==> SameSink(w, sh, hi)
  {
    var n, h := sh.heads * sh.headDim, sh.heads / 2 + hi;
    w := new Layer(v => v, v => [], n, v => [1.0], (v, p) => v, (v, p) => v, exp, 1.0, sink, n, [Unit(n, h * sh.headDim)], None);
    var c := new KvCache([], false);
    var c0 := new KvCache([], false);
    var c1 := new KvCache([], false);
    hide ContextAt, Wo, SinksAgree, FullWeights, Positive, Increasing, Attention;
    ProbeDecides(w, sh, [1.0], pos, [1.0], hi);
    var ok;
    ok, one := AttentionHeads(w, sh, [1.0], pos, c, 0, sh.heads);
    var peer;
    ok, two, peer := AttentionTp2([1.0], [1.0], w, w, sh, pos, c0, c1);
    assert c.keys == [[1.0]] && c0.keys == [[1.0]] && c1.keys == [[1.0]];
    OneRank(w, sh, [1.0], pos, [[1.0]]);
  }
}
