/**
 Window attention as a textbook has it, on one query per head, the keys, one sink score per head and the
 output matrices by rows, and what the code computes from the flat buffers of these.
 */
module TpMeaning {
  import opened Arith
  import opened Results
  import opened RealSum
  import opened Softmax
  import opened Buffers
  import opened Textbook
  import opened TpAttention

  // ---------------------------------------------------------------------------------------------
  // The textbook
  // ---------------------------------------------------------------------------------------------

  /** The scores of the keys for a query, and the score of the sink. */
  function ScoresOf(scale: real, q: Vec, keys: seq<Vec>, sink: real): Vec
    requires Even(keys, |q|)
  {
    seq(|keys|, t requires 0 <= t < |keys| => Dot(q, keys[t]) * scale) + [sink]
  }

  function Pooling(a: Vec, keys: seq<Vec>, d: nat): nat -> real {
    (t: nat) => if t < |keys| then At(a, t) * At(keys[t], d) else 0.0
  }

  /** The keys, weighted by the softmax over all scores; what the sink takes is lost. */
  function Attended(exp: real -> real, scale: real, q: Vec, keys: seq<Vec>, sink: real): Vec
    requires Even(keys, |q|)
  {
    seq(|q|, d requires 0 <= d < |q| => Sum(|keys|, Pooling(Weights(exp, ScoresOf(scale, q, keys, sink)), keys, d)))
  }

  function Heads(exp: real -> real, scale: real, qs: seq<Vec>, keys: seq<Vec>, sinks: Vec, n: nat): seq<Vec>
    requires Even(qs, n) && Even(keys, n) && |sinks| == |qs|
  {
    seq(|qs|, h requires 0 <= h < |qs| => Attended(exp, scale, qs[h], keys, sinks[h]))
  }

  /** The output matrices, one after the other. */
  function Projected(a: seq<Vec>, b: Option<seq<Vec>>, ctx: Vec): Vec
    requires Even(a, |ctx|) && (b.Some? ==> Even(b.value, |a|))
  {
    if b.Some? then Product(b.value, Product(a, ctx)) else Product(a, ctx)
  }

  // ---------------------------------------------------------------------------------------------
  // The query of a head
  // ---------------------------------------------------------------------------------------------

  function Zeros(n: nat): Vec {
    seq(n, k => 0.0)
  }

  function RowOf(qs: seq<Vec>, n: nat, h: nat): (r: Vec)
    requires Even(qs, n)
    ensures |r| == n
  {
    if h < |qs| then qs[h] else Zeros(n)
  }

  function Start(a: nat, b: nat): nat {
    a * b
  }

  lemma HeadQueryForm(w: Layer, sh: Shape, x: Vec, pos: nat, h: nat)
    ensures HeadQuery(w, sh, x, pos, h) == w.ropeQ(Slice(Queries(w, sh, x), Start(h, sh.headDim), sh.headDim), pos)
  {}

  /** The query projection puts out one query after the other; missing ones are zero. */
  lemma HeadQueryIs(w: Layer, sh: Shape, x: Vec, pos: nat, qs: seq<Vec>, h: nat)
    requires w.query(w.norm(x)) == Flat(qs) && Even(qs, sh.headDim) && h < sh.heads
    ensures HeadQuery(w, sh, x, pos, h) == w.ropeQ(RowOf(qs, sh.headDim, h), pos)
  {
    hide *;
    var row := RowOf(qs, sh.headDim, h);
    forall d: nat | d < sh.headDim
      ensures At(Queries(w, sh, x), Start(h, sh.headDim) + d) == row[d]
    {
      Padding(w, sh, x, Start(h, sh.headDim) + d);
      RowOr(qs, sh.headDim, h, d);
    }
    SliceIs(Queries(w, sh, x), Start(h, sh.headDim), row);
    HeadQueryForm(w, sh, x, pos, h);
  }

  /** What is missing of the buffer of queries is zero. */
  lemma Padding(w: Layer, sh: Shape, x: Vec, i: nat)
    ensures At(Queries(w, sh, x), i) == At(w.query(w.norm(x)), i)
  {}

  lemma RowOr(rows: seq<Vec>, n: nat, h: nat, d: nat)
    requires Even(rows, n) && d < n
    ensures At(Flat(rows), Start(h, n) + d) == RowOf(rows, n, h)[d]
  {
    hide Flat;
    if h < |rows| {
      FlatAt(rows, n, h, d);
    } else {
      FlatSize(rows, n);
      MulMonotone(|rows|, h, n);
    }
  }

  lemma SliceIs(s: Vec, from: nat, row: Vec)
    requires forall d: nat :: d < |row| ==> At(s, from + d) == row[d]
    ensures Slice(s, from, |row|) == row
  {}

  // ---------------------------------------------------------------------------------------------
  // One head
  // ---------------------------------------------------------------------------------------------

  lemma WeightMeaning(exp: real -> real, s: Vec, t: nat)
    requires t < |s| && Positive(exp)
    ensures Weight(exp, s, t) == Weights(exp, s)[t]
  {
    hide Largest, Sum, Weights;
    DenPositive(exp, s);
    WeightForm(exp, s, t);
  }

  lemma ScoresMeaning(w: Layer, sh: Shape, q: Vec, keys: seq<Vec>, si: nat)
    requires |q| == sh.headDim && Even(keys, sh.headDim)
    ensures Scores(w, sh, q, keys, si) ==
            ScoresOf(w.scale, q, keys, if si < |w.sink| then w.sink[si] else -1000000000.0)
  {
    hide KeyScore, Dot;
    forall t | 0 <= t < |keys|
      ensures KeyScore(w, sh, q, keys[t]) == Dot(q, keys[t]) * w.scale
    {
      ScoreMeaning(w, sh, q, keys[t]);
    }
    var sink := if si < |w.sink| then w.sink[si] else -1000000000.0;
    var s, s' := Scores(w, sh, q, keys, si), ScoresOf(w.scale, q, keys, sink);
    assert |s| == |s'| == |keys| + 1 && s[|keys|] == s'[|keys|] == sink;
    assert forall t :: 0 <= t < |keys| ==> s[t] == KeyScore(w, sh, q, keys[t]) && s'[t] == Dot(q, keys[t]) * w.scale;
  }

  lemma ScoreMeaning(w: Layer, sh: Shape, q: Vec, k: Vec)
    requires |q| == |k| == sh.headDim
    ensures KeyScore(w, sh, q, k) == Dot(q, k) * w.scale
  {
    SumEqual(sh.headDim, DotTerms(q, k), Times(q, k));
  }

  /** What a head adds to the context is textbook attention with the sink of the given index. */
  lemma HeadMeaning(w: Layer, sh: Shape, x: Vec, pos: nat, keys: seq<Vec>, h: nat, si: nat, d: nat)
    requires Positive(w.exp) && Even(keys, sh.headDim) && |HeadQuery(w, sh, x, pos, h)| == sh.headDim && d < sh.headDim
    ensures HeadContext(w, sh, x, pos, keys, h, si, d) ==
            Attended(w.exp, w.scale, HeadQuery(w, sh, x, pos, h), keys,
                     if si < |w.sink| then w.sink[si] else -1000000000.0)[d]
  {
    hide Scores, ScoresOf, Sum, Weight, Weights, HeadQuery, PoolTerms, Pooling;
    var q, sink := HeadQuery(w, sh, x, pos, h), if si < |w.sink| then w.sink[si] else -1000000000.0;
    var s := ScoresOf(w.scale, q, keys, sink);
    ScoresMeaning(w, sh, q, keys, si);
    SizeOf(w.scale, q, keys, sink);
    forall t: nat | t < |keys|
      ensures PoolTerms(w.exp, s, keys, d)(t) == Pooling(Weights(w.exp, s), keys, d)(t)
    {
      WeightMeaning(w.exp, s, t);
      TermIs(w.exp, s, keys, d, t);
    }
    SumEqual(|keys|, PoolTerms(w.exp, s, keys, d), Pooling(Weights(w.exp, s), keys, d));
  }

  lemma SizeOf(scale: real, q: Vec, keys: seq<Vec>, sink: real)
    requires Even(keys, |q|)
    ensures |ScoresOf(scale, q, keys, sink)| == |keys| + 1
  {}

  lemma TermIs(exp: real -> real, s: Vec, keys: seq<Vec>, d: nat, t: nat)
    requires s != [] && t < |keys| <= |s|
    ensures PoolTerms(exp, s, keys, d)(t) == Weight(exp, s, t) * At(keys[t], d)
    ensures Pooling(Weights(exp, s), keys, d)(t) == Weights(exp, s)[t] * At(keys[t], d)
  {
    hide Weight, Weights;
  }

  // ---------------------------------------------------------------------------------------------
  // The context buffer and its projection
  // ---------------------------------------------------------------------------------------------

  /** The sink score of the i-th head of a call that starts at head `begin`. */
  function SinkOf(w: Layer, sh: Shape, begin: nat, i: nat): real {
    if |w.sink| >= sh.heads && begin + i < |w.sink| then w.sink[begin + i]
    else if |w.sink| < sh.heads && i < |w.sink| then w.sink[i]
    else -1000000000.0
  }

  ghost predicate SinksOf(w: Layer, sh: Shape, begin: nat, sinks: Vec) {
    forall i: nat :: i < |sinks| ==> sinks[i] == SinkOf(w, sh, begin, i)
  }

  /** The rotated queries of the heads of a call. */
  ghost predicate QueriesOf(w: Layer, sh: Shape, x: Vec, pos: nat, begin: nat, qs: seq<Vec>) {
    forall i :: 0 <= i < |qs| ==> qs[i] == HeadQuery(w, sh, x, pos, begin + i)
  }

  function Blank(rows: nat, n: nat): seq<Vec> {
    seq(rows, r => Zeros(n))
  }

  /** The buffer that is projected: the call's heads one after the other, in their places among all heads
      when the output matrix is wide enough for these. */
  function ContextRows(exp: real -> real, scale: real, qs: seq<Vec>, keys: seq<Vec>, sinks: Vec, n: nat, before: nat): seq<Vec>
    requires Even(qs, n) && Even(keys, n) && |sinks| == |qs|
  {
    Blank(before, n) + Heads(exp, scale, qs, keys, sinks, n)
  }

  lemma AttendedSize(exp: real -> real, scale: real, q: Vec, keys: seq<Vec>, sink: real)
    requires Even(keys, |q|)
    ensures |Attended(exp, scale, q, keys, sink)| == |q|
  {}

  lemma SinkIs(w: Layer, sh: Shape, begin: nat, sinks: Vec, i: nat)
    requires SinksOf(w, sh, begin, sinks) && i < |sinks|
    ensures var si := SinkIndex(w, sh, begin, begin + i);
            sinks[i] == if si < |w.sink| then w.sink[si] else -1000000000.0
  {
    assert sinks[i] == SinkOf(w, sh, begin, i);
  }

  lemma RowsEven(exp: real -> real, scale: real, qs: seq<Vec>, keys: seq<Vec>, sinks: Vec, n: nat, before: nat)
    requires Even(qs, n) && Even(keys, n) && |sinks| == |qs|
    ensures Even(ContextRows(exp, scale, qs, keys, sinks, n, before), n)
    ensures |ContextRows(exp, scale, qs, keys, sinks, n, before)| == before + |qs|
  {}

  lemma ContextMeaning(w: Layer, sh: Shape, x: Vec, pos: nat, keys: seq<Vec>, begin: nat, qs: seq<Vec>, sinks: Vec, i: nat)
    requires Positive(w.exp) && Even(keys, sh.headDim) && Even(qs, sh.headDim) && sh.headDim > 0 && |sinks| == |qs|
    requires QueriesOf(w, sh, x, pos, begin, qs) && SinksOf(w, sh, begin, sinks)
    ensures ContextAt(w, sh, x, pos, keys, begin, |qs|)(i) ==
            At(Flat(ContextRows(w.exp, w.scale, qs, keys, sinks, sh.headDim,
                                if w.woIn >= sh.heads * sh.headDim then begin else 0)), i)
  {
    hide *;
    var n, before := sh.headDim, if w.woIn >= sh.heads * sh.headDim then begin else 0;
    var rows := ContextRows(w.exp, w.scale, qs, keys, sinks, n, before);
    RowsEven(w.exp, w.scale, qs, keys, sinks, n, before);
    var p, d := i / n, i % n;
    FlatElement(rows, n, i);
    ContextForm(w, sh, x, pos, keys, begin, |qs|, i);
    if p < |rows| {
      RowMeaning(w, sh, x, pos, keys, begin, qs, sinks, before, p, d);
    }
  }

  lemma FlatElement(rows: seq<Vec>, n: nat, i: nat)
    requires Even(rows, n) && n > 0
    ensures i / n < |rows| ==> |rows[i / n]| == n
    ensures At(Flat(rows), i) == if i / n < |rows| then rows[i / n][i % n] else 0.0
  {
    hide Flat;
    RowOr(rows, n, i / n, i % n);
  }

  /** The place of element i among the call's heads, wherever the buffer has room for. */
  lemma ContextForm(w: Layer, sh: Shape, x: Vec, pos: nat, keys: seq<Vec>, begin: nat, n: nat, i: nat)
    requires sh.headDim > 0
    ensures ContextAt(w, sh, x, pos, keys, begin, n)(i) ==
            var p, before := i / sh.headDim, if w.woIn >= sh.heads * sh.headDim then begin else 0;
            if before <= p < before + n then
              var h: nat := begin + p - before;
              HeadContext(w, sh, x, pos, keys, h, SinkIndex(w, sh, begin, h), i % sh.headDim)
            else 0.0
  {
    hide HeadContext, SinkIndex;
  }

  /** Element d of row p of the buffer. */
  lemma RowMeaning(w: Layer, sh: Shape, x: Vec, pos: nat, keys: seq<Vec>, begin: nat, qs: seq<Vec>, sinks: Vec,
                   before: nat, p: nat, d: nat)
    requires Positive(w.exp) && Even(keys, sh.headDim) && Even(qs, sh.headDim) && d < sh.headDim && |sinks| == |qs|
    requires QueriesOf(w, sh, x, pos, begin, qs) && SinksOf(w, sh, begin, sinks) && p < before + |qs|
    ensures var rows := ContextRows(w.exp, w.scale, qs, keys, sinks, sh.headDim, before);
            |rows| == before + |qs| && |rows[p]| == sh.headDim &&
            rows[p][d] == if p < before then 0.0
                          else var h: nat := begin + p - before;
                               HeadContext(w, sh, x, pos, keys, h, SinkIndex(w, sh, begin, h), d)
  {
    hide HeadContext, HeadQuery, Attended, SinkIndex;
    if p >= before {
      var i: nat := p - before;
      SinkIs(w, sh, begin, sinks, i);
      AttendedSize(w.exp, w.scale, qs[i], keys, sinks[i]);
      assert qs[i] == HeadQuery(w, sh, x, pos, begin + i);
      HeadMeaning(w, sh, x, pos, keys, begin + i, SinkIndex(w, sh, begin, begin + i), d);
    }
    RowsEven(w.exp, w.scale, qs, keys, sinks, sh.headDim, before);
  }

  /** The output projection is the product with the output matrices. */
  lemma WoMeaning(w: Layer, ctx: Vec)
    requires |ctx| == w.woIn && Even(w.woA, w.woIn) && (w.woB.Some? ==> Even(w.woB.value, |w.woA|))
    ensures Wo(w, Vector(ctx)) == Projected(w.woA, w.woB, ctx)
  {
    hide Projected;
    ApplyMeaning(w.woA, ctx);
    if w.woB.Some? {
      ApplyMeaning(w.woB.value, Product(w.woA, ctx));
    }
    ProjectedIs(w.woA, w.woB, ctx);
  }

  lemma ProjectedIs(a: seq<Vec>, b: Option<seq<Vec>>, ctx: Vec)
    requires Even(a, |ctx|) && (b.Some? ==> Even(b.value, |a|))
    ensures Projected(a, b, ctx) == if b.Some? then Product(b.value, Product(a, ctx)) else Product(a, ctx)
  {}

  lemma ApplyMeaning(rows: seq<Vec>, x: Vec)
    requires Even(rows, |x|)
    ensures Apply(rows, |x|, Vector(x)) == Product(rows, x)
  {
    forall o | 0 <= o < |rows|
      ensures Sum(|x|, RowTerms(rows[o], Vector(x))) == Dot(rows[o], x)
    {
      SumEqual(|x|, RowTerms(rows[o], Vector(x)), Times(rows[o], x));
    }
  }

  // ---------------------------------------------------------------------------------------------
  // The calls
  // ---------------------------------------------------------------------------------------------

  function Rotated(w: Layer, rs: seq<Vec>, pos: nat): seq<Vec> {
    seq(|rs|, h requires 0 <= h < |rs| => w.ropeQ(rs[h], pos))
  }

  function SinksFor(w: Layer, n: nat): Vec {
    seq(n, h requires 0 <= h < n => if h < |w.sink| then w.sink[h] else -1000000000.0)
  }

  /** The query projection gives the queries rs, and all sizes fit. */
  ghost predicate Suits(w: Layer, sh: Shape, x: Vec, pos: nat, rs: seq<Vec>) {
    && w.query(w.norm(x)) == Flat(rs) && |rs| == sh.heads && Even(rs, sh.headDim) && Even(Rotated(w, rs, pos), sh.headDim)
    && |w.ropeK(w.key(w.norm(x)), pos)| == sh.headDim && Positive(w.exp)
    && MatricesFit(w, sh.heads * sh.headDim)
  }

  predicate MatricesFit(w: Layer, n: nat) {
    w.woIn == n && Even(w.woA, n) && (w.woB.Some? ==> Even(w.woB.value, |w.woA|))
  }

  /** Textbook attention of all heads over the keys, projected. */
  function AttentionOf(w: Layer, n: nat, qs: seq<Vec>, keys: seq<Vec>): Vec
    requires Even(qs, n) && Even(keys, n) && MatricesFit(w, |qs| * n)
  {
    var rows := Heads(w.exp, w.scale, qs, keys, SinksFor(w, |qs|), n);
    FlatSize(rows, n);
    Projected(w.woA, w.woB, Flat(rows))
  }

  lemma AttentionMeaning(w: Layer, sh: Shape, x: Vec, pos: nat, rs: seq<Vec>, keys: seq<Vec>)
    requires Suits(w, sh, x, pos, rs) && Even(keys, sh.headDim) && sh.headDim > 0
    ensures Attention(w, sh, x, pos, keys) == AttentionOf(w, sh.headDim, Rotated(w, rs, pos), keys)
  {
    hide Flat, Heads, ContextAt, Projected, Wo, HeadQuery;
    var n, qs, sinks := sh.headDim, Rotated(w, rs, pos), SinksFor(w, sh.heads);
    var rows := Heads(w.exp, w.scale, qs, keys, sinks, n);
    forall h | 0 <= h < |qs|
      ensures qs[h] == HeadQuery(w, sh, x, pos, h)
    {
      HeadQueryIs(w, sh, x, pos, rs, h);
    }
    HeadsSize(w.exp, w.scale, qs, keys, sinks, n);
    FlatSize(rows, n);
    NoneBefore(w.exp, w.scale, qs, keys, sinks, n);
    forall i: nat
      ensures ContextAt(w, sh, x, pos, keys, 0, |qs|)(i) == Vector(Flat(rows))(i)
    {
      ContextMeaning(w, sh, x, pos, keys, 0, qs, sinks, i);
    }
    WoDependsOn(w, ContextAt(w, sh, x, pos, keys, 0, |qs|), Vector(Flat(rows)));
    WoMeaning(w, Flat(rows));
  }

  lemma HeadsSize(exp: real -> real, scale: real, qs: seq<Vec>, keys: seq<Vec>, sinks: Vec, n: nat)
    requires Even(qs, n) && Even(keys, n) && |sinks| == |qs|
    ensures var rows := Heads(exp, scale, qs, keys, sinks, n); |rows| == |qs| && Even(rows, n)
  {}

  lemma NoneBefore(exp: real -> real, scale: real, qs: seq<Vec>, keys: seq<Vec>, sinks: Vec, n: nat)
    requires Even(qs, n) && Even(keys, n) && |sinks| == |qs|
    ensures ContextRows(exp, scale, qs, keys, sinks, n, 0) == Heads(exp, scale, qs, keys, sinks, n)
  {
    hide Heads;
    assert Blank(0, n) == [];
  }

  /** One rank with all heads puts out textbook attention over the keys of its cache and the new token's. */
  method Attend(x: Vec, w: Layer, sh: Shape, pos: nat, cache: KvCache, ghost rs: seq<Vec>) returns (ok: bool, out: Vec)
    requires Suits(w, sh, x, pos, rs) && Even(cache.keys, sh.headDim)
    modifies cache
    ensures ok <==> sh.heads > 0 && sh.headDim > 0 && x != []
    ensures ok ==> cache.keys == old(cache.keys) +
                                 if old(cache.seeded) && old(cache.keys) != [] then [] else [w.ropeK(w.key(w.norm(x)), pos)]
    ensures ok ==> Even(cache.keys, sh.headDim) && MatricesFit(w, sh.heads * sh.headDim) &&
                   out == AttentionOf(w, sh.headDim, Rotated(w, rs, pos), cache.keys)
  {
    hide Attention, AttentionOf;
    ok, out := AttentionHeads(w, sh, x, pos, cache, 0, sh.heads);
    if ok {
      OneRank(w, sh, x, pos, cache.keys);
      AttentionMeaning(w, sh, x, pos, rs, cache.keys);
    }
  }

  /** So do two ranks with the same full weights, inputs and caches, and a sink for every head. */
  method AttendTp2(x: Vec, w: Layer, sh: Shape, pos: nat, cache: KvCache, peerCache: KvCache, ghost rs: seq<Vec>)
    returns (ok: bool, out: Vec, peerOut: Vec)
    requires Suits(w, sh, x, pos, rs) && Even(cache.keys, sh.headDim) && cache != peerCache
    requires cache.keys == peerCache.keys && cache.seeded == peerCache.seeded
    requires w.qRows >= sh.heads * sh.headDim && |w.sink| >= sh.heads
    modifies cache, peerCache
    ensures ok <==> sh.heads > 0 && sh.headDim > 0 && x != []
    ensures ok ==> cache.keys == peerCache.keys == old(cache.keys) +
                                 if old(cache.seeded) && old(cache.keys) != [] then [] else [w.ropeK(w.key(w.norm(x)), pos)]
    ensures ok ==> Even(cache.keys, sh.headDim) && MatricesFit(w, sh.heads * sh.headDim) &&
                   out == peerOut == AttentionOf(w, sh.headDim, Rotated(w, rs, pos), cache.keys)
  {
    hide Attention, AttentionOf;
    SinksAgreeWhen(w, sh);
    ok, out, peerOut := AttentionTp2(x, x, w, w, sh, pos, cache, peerCache);
    if ok {
      AttentionMeaning(w, sh, x, pos, rs, cache.keys);
    }
  }
}
