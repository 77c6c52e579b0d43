/**
 The mixture-of-experts layer: one pass over the distinct experts of all tokens, with pinned expert
 views and one-ahead prefetching, equals the weighted sum each token asked for.
 */
module Dsv4Moe {
  import opened Results
  import RealSum

  type Vec = seq<real>

  // ---------------------------------------------------------------------------------------------
  // Grouping by expert
  // ---------------------------------------------------------------------------------------------

  /** The summed weight a token gives to expert e among its first n choices. */
  function WeightOf(ids: seq<int>, ws: seq<real>, e: int, n: nat): real
    requires n <= |ids| && n <= |ws|
  {
    if n == 0 then 0.0 else WeightOf(ids, ws, e, n - 1) + (if ids[n - 1] == e then ws[n - 1] else 0.0)
  }

  /** Expert by expert: the first u distinct experts, each with its summed weight. */
  function ByExpert(uniq: seq<int>, u: nat, ids: seq<int>, ws: seq<real>, n: nat, g: int -> real): real
    requires u <= |uniq| && n <= |ids| && n <= |ws|
  {
    if u == 0 then 0.0
    else ByExpert(uniq, u - 1, ids, ws, n, g) + WeightOf(ids, ws, uniq[u - 1], n) * g(uniq[u - 1])
  }

  /** Choice by choice, as a token asks for it; unfilled choices are negative. */
  function ByChoice(ids: seq<int>, ws: seq<real>, n: nat, g: int -> real): real
    requires n <= |ids| && n <= |ws|
  {
    if n == 0 then 0.0
    else ByChoice(ids, ws, n - 1, g) + (if ids[n - 1] >= 0 then ws[n - 1] * g(ids[n - 1]) else 0.0)
  }

  predicate Distinct(s: seq<int>) {
    forall i, j :: 0 <= i < j < |s| ==> s[i] != s[j]
  }

  /** What the union of a batch's choices promises: distinct filled ids, with every filled choice among them. */
  predicate IsUnion(uniq: seq<int>, idx: seq<seq<int>>) {
    && Distinct(uniq)
    && (forall e :: e in uniq ==> e >= 0)
    && (forall c, t :: 0 <= c < |idx| && 0 <= t < |idx[c]| && idx[c][t] >= 0 ==> idx[c][t] in uniq)
  }

  lemma {:induction false} NoChoices(uniq: seq<int>, u: nat, ids: seq<int>, ws: seq<real>, g: int -> real)
    requires u <= |uniq|
    ensures ByExpert(uniq, u, ids, ws, 0, g) == 0.0
  {
    if u > 0 {
      NoChoices(uniq, u - 1, ids, ws, g);
    }
  }

  /** One more choice adds its weighted expert once, wherever the expert stands in the union. */
  lemma {:induction false} OneMoreChoice(uniq: seq<int>, u: nat, ids: seq<int>, ws: seq<real>, n: nat, g: int -> real)
    requires u <= |uniq| && 0 < n <= |ids| && n <= |ws| && Distinct(uniq)
    ensures ByExpert(uniq, u, ids, ws, n, g) ==
            ByExpert(uniq, u, ids, ws, n - 1, g) + (if ids[n - 1] in uniq[..u] then ws[n - 1] * g(ids[n - 1]) else 0.0)
  {
    if u > 0 {
      OneMoreChoice(uniq, u - 1, ids, ws, n, g);
      var e := uniq[u - 1];
      assert uniq[..u] == uniq[..u - 1] + [e];
      assert e !in uniq[..u - 1];
      var w := WeightOf(ids, ws, e, n - 1);
      if ids[n - 1] == e {
        assert (w + ws[n - 1]) * g(e) == w * g(e) + ws[n - 1] * g(e);
      }
    }
  }

  /** Summing by expert is summing by choice, repeated ids included. */
  lemma {:induction false} GroupedIsPerToken(uniq: seq<int>, ids: seq<int>, ws: seq<real>, n: nat, g: int -> real)
    requires n <= |ids| && n <= |ws| && IsUnion(uniq, [ids])
    ensures ByExpert(uniq, |uniq|, ids, ws, n, g) == ByChoice(ids, ws, n, g)
    decreases n
  {
    if n == 0 {
      NoChoices(uniq, |uniq|, ids, ws, g);
    } else {
      GroupedIsPerToken(uniq, ids, ws, n - 1, g);
      OneMoreChoice(uniq, |uniq|, ids, ws, n, g);
      assert uniq[..|uniq|] == uniq;
      assert [ids][0][n - 1] == ids[n - 1];
    }
  }

  // ---------------------------------------------------------------------------------------------
  // The union of the choices
  // ---------------------------------------------------------------------------------------------

  predicate Ordered(s: seq<int>) {
    forall i, j :: 0 <= i < j < |s| ==> s[i] <= s[j]
  }

  predicate Increasing(s: seq<int>) {
    forall i, j :: 0 <= i < j < |s| ==> s[i] < s[j]
  }

  function Insert(x: int, s: seq<int>): (r: seq<int>)
    requires Ordered(s)
    ensures Ordered(r) && multiset(r) == multiset(s) + multiset{x}
  {
    if s == [] || x <= s[0] then [x] + s
    else
      var r := Insert(x, s[1..]);
      SmallestStays(x, s, r);
      [s[0]] + r
  }

  lemma SmallestStays(x: int, s: seq<int>, r: seq<int>)
    requires s != [] && Ordered(s) && x > s[0] && Ordered(r) && multiset(r) == multiset(s[1..]) + multiset{x}
    ensures Ordered([s[0]] + r) && multiset([s[0]] + r) == multiset(s) + multiset{x}
  {
    assert s == [s[0]] + s[1..];
    forall k | 0 <= k < |r|
      ensures s[0] <= r[k]
    {
      assert r[k] in multiset(r);
    }
  }

  /** What std::sort promises. */
  function Sort(s: seq<int>): (r: seq<int>)
    ensures Ordered(r) && multiset(r) == multiset(s)
  {
    if s == [] then []
    else
      assert s == [s[0]] + s[1..];
      Insert(s[0], Sort(s[1..]))
  }

  /** The distinct filled choices in increasing order, cut after the cap smallest. */
  predicate SmallestFilled(out: seq<int>, choices: seq<int>, cap: int) {
    && Increasing(out) && |out| <= AtMost(cap) && (forall e :: e in out ==> e >= 0 && e in choices)
    && forall e :: e in choices && e >= 0 && e !in out ==> |out| == AtMost(cap) && AllBelow(out, e)
  }

  predicate AllBelow(s: seq<int>, e: int) {
    forall i :: 0 <= i < |s| ==> s[i] < e
  }

  function AtMost(cap: int): nat {
    if cap < 0 then 0 else cap
  }

  /** moe_union_ids: keeps the filled choices, sorts them, and drops repeats up to the cap. */
  method UnionIds(choices: seq<int>, cap: int) returns (out: seq<int>)
    ensures SmallestFilled(out, choices, cap)
  {
    hide Sort;
    out := [];
    if choices == [] || cap <= 0 {
      return;
    }
    var all := FilledOnly(choices);
    if all == [] {
      return;
    }
    SortKeeps(all);
    all := Sort(all);
    out := DropRepeats(all, cap);
  }

  lemma SortKeeps(s: seq<int>)
    ensures Ordered(Sort(s)) && forall e :: e in Sort(s) <==> e in s
  {
    hide Sort;
    forall e
      ensures e in Sort(s) <==> e in s
    {
      assert e in multiset(s) <==> e in multiset(Sort(s));
    }
  }

  /** The distinct ones among the first i, in increasing order. */
  predicate DistinctOf(out: seq<int>, all: seq<int>, i: nat) {
    && i <= |all| && Increasing(out) && (out == [] <==> i == 0) && (i > 0 ==> out != [] && out[|out| - 1] == all[i - 1])
    && (forall e :: e in out ==> e in all[..i]) && forall k :: 0 <= k < i ==> all[k] in out
  }

  method DropRepeats(all: seq<int>, cap: int) returns (out: seq<int>)
    requires Ordered(all) && cap > 0
    ensures Increasing(out) && |out| <= cap && forall e :: e in out ==> e in all
    ensures forall e :: e in all && e !in out ==> |out| == cap && AllBelow(out, e)
  {
    hide DistinctOf, Ordered;
    out := [];
    var i := 0;
    DistinctNone(all);
    while i < |all| && |out| < cap
      invariant 0 <= i <= |all| && |out| <= cap && DistinctOf(out, all, i)
    {
      DistinctMore(out, all, i);
      if |out| == 0 || all[i] != out[|out| - 1] {
        out := out + [all[i]];
      }
      i := i + 1;
    }
    DistinctCut(out, all, i);
  }

  lemma DistinctNone(all: seq<int>)
    ensures DistinctOf([], all, 0)
  {}

  lemma DistinctMore(out: seq<int>, all: seq<int>, i: nat)
    requires Ordered(all) && DistinctOf(out, all, i) && i < |all|
    ensures DistinctOf(if |out| == 0 || all[i] != out[|out| - 1] then out + [all[i]] else out, all, i + 1)
  {
    assert all[..i + 1] == all[..i] + [all[i]];
  }

  /** What is left out is larger than all that is kept. */
  lemma DistinctCut(out: seq<int>, all: seq<int>, i: nat)
    requires Ordered(all) && DistinctOf(out, all, i)
    ensures Increasing(out) && (forall e :: e in out ==> e in all)
    ensures forall e :: e in all && e !in out ==> i < |all| && AllBelow(out, e)
  {
    forall e | e in all && e !in out
      ensures i < |all| && AllBelow(out, e)
    {
      var k :| 0 <= k < |all| && all[k] == e;
      assert k >= i;
      if i > 0 {
        assert all[i - 1] in out && all[i - 1] <= all[k];
      }
    }
  }

  method FilledOnly(choices: seq<int>) returns (all: seq<int>)
    ensures forall e :: e in all <==> e in choices && e >= 0
  {
    all := [];
    var i := 0;
    while i < |choices|
      invariant 0 <= i <= |choices| && forall e :: e in all <==> e in choices[..i] && e >= 0
    {
      if choices[i] >= 0 {
        all := all + [choices[i]];
      }
      i := i + 1;
    }
    assert choices[..i] == choices;
  }

  ghost function FilledSet(choices: seq<int>): set<int> {
    set e | e in choices && e >= 0
  }

  /** No filled choice is cut off exactly when there are no more distinct ones than the cap. */
  lemma CompleteWhen(out: seq<int>, choices: seq<int>, cap: int)
    requires SmallestFilled(out, choices, cap)
    ensures (forall e :: e in choices && e >= 0 ==> e in out) <==> |FilledSet(choices)| <= AtMost(cap)
  {
    var kept := set e | e in out;
    IncreasingSize(out);
    if forall e :: e in choices && e >= 0 ==> e in out {
      assert FilledSet(choices) == kept;
    } else {
      var e :| e in choices && e >= 0 && e !in out;
      SubsetSize(kept + {e}, FilledSet(choices));
    }
  }

  lemma {:induction false} IncreasingSize(s: seq<int>)
    requires Increasing(s)
    ensures |set e | e in s| == |s|
  {
    if s != [] {
      var n := |s| - 1;
      IncreasingSize(s[..n]);
      assert s == s[..n] + [s[n]];
      assert (set e | e in s) == (set e | e in s[..n]) + {s[n]};
    }
  }

  lemma {:induction false} SubsetSize<T>(a: set<T>, b: set<T>)
    requires a <= b
    ensures |a| <= |b|
  {
    if a != {} {
      var e :| e in a;
      SubsetSize(a - {e}, b - {e});
    }
  }

  lemma Member<T>(a: set<T>) returns (e: T)
    requires a != {}
    ensures e in a
  {
    e :| e in a;
  }

  lemma {:induction false} BelowSize(a: set<int>, n: nat)
    requires forall e :: e in a ==> 0 <= e < n
    ensures |a| <= n
  {
    if n > 0 {
      BelowSize(a - {n - 1}, n - 1);
      SubsetSize(a, (a - {n - 1}) + {n - 1});
    } else if a != {} {
      var e := Member(a);
    }
  }

  /** The choices of all tokens, one token after the other. */
  function Flat(idx: seq<seq<int>>): seq<int> {
    if idx == [] then [] else Flat(idx[..|idx| - 1]) + idx[|idx| - 1]
  }

  lemma {:induction false} InFlat(idx: seq<seq<int>>, e: int)
    ensures e in Flat(idx) <==> exists c :: 0 <= c < |idx| && e in idx[c]
  {
    if idx != [] {
      InFlat(idx[..|idx| - 1], e);
    }
  }

  /** All choices name one of the first n experts, or none. */
  predicate ChoicesBelow(idx: seq<seq<int>>, n: nat) {
    forall c, t :: 0 <= c < |idx| && 0 <= t < |idx[c]| ==> idx[c][t] < n
  }

  /** With room for every expert the union is complete. */
  lemma RoomForAll(out: seq<int>, idx: seq<seq<int>>, experts: nat)
    requires SmallestFilled(out, Flat(idx), if experts > 1 then experts else 1) && ChoicesBelow(idx, experts)
    ensures IsUnion(out, idx)
  {
    var cap := if experts > 1 then experts else 1;
    forall e | e in Flat(idx)
      ensures e < experts
    {
      InFlat(idx, e);
    }
    BelowSize(FilledSet(Flat(idx)), cap);
    CompleteWhen(out, Flat(idx), cap);
    forall c, t | 0 <= c < |idx| && 0 <= t < |idx[c]| && idx[c][t] >= 0
      ensures idx[c][t] in out
    {
      InFlat(idx, idx[c][t]);
    }
  }

  // ---------------------------------------------------------------------------------------------
  // The expert store, by its contract
  // ---------------------------------------------------------------------------------------------

  datatype View = View(expert: int, hasData: bool)

  /**
   What src/model/family.hpp and the store's header promise: a successful lookup pins a view until
   its release, and one prefetch is paired with one wait.
   */
  class ExpertStore {
    var pinned: multiset<int>
    var inflight: Option<int>
    const registered: int -> bool
    const resident: int -> bool
    const prefetchOk: int -> bool

    constructor (r: int -> bool, d: int -> bool, p: int -> bool)
      ensures pinned == multiset{} && inflight == None
    {
      registered, resident, prefetchOk := r, d, p;
      pinned, inflight := multiset{}, None;
    }

    method Lookup(e: int) returns (ok: bool, v: View)
      modifies this`pinned
      ensures ok == registered(e) && v == View(e, resident(e))
      ensures pinned == if ok then old(pinned) + multiset{e} else old(pinned)
    {
      ok, v := registered(e), View(e, resident(e));
      if ok {
        pinned := pinned + multiset{e};
      }
    }

    method Release(v: View)
      requires v.expert in pinned
      modifies this`pinned
      ensures pinned == old(pinned) - multiset{v.expert}
    {
      pinned := pinned - multiset{v.expert};
    }

    method PrefetchAsync(e: int)
      requires inflight == None
      modifies this`inflight
      ensures inflight == Some(e)
    {
      inflight := Some(e);
    }

    method WaitPrefetch() returns (ok: bool)
      modifies this`inflight
      ensures inflight == None && ok == (old(inflight).Some? ==> prefetchOk(old(inflight).value))
    {
      ok := inflight.Some? ==> prefetchOk(inflight.value);
      inflight := None;
    }
  }

  // ---------------------------------------------------------------------------------------------
  // The layer
  // ---------------------------------------------------------------------------------------------

  /** The kernels of one layer: the experts, the shared expert, and the routed scale. */
  class MoeNet {
    const hidden: nat
    const experts: nat
    const expert: (int, Vec) -> Vec
    const hasShared: bool
    const shared: Vec -> Vec
    const routedScale: real
    const pipe: bool

    constructor (h: nat, n: nat, e: (int, Vec) -> Vec, hs: bool, s: Vec -> Vec, r: real, p: bool)
    {
      hidden, experts, expert, hasShared, shared, routedScale, pipe := h, n, e, hs, s, r, p;
    }
  }

  ghost predicate ShapedMoe(net: MoeNet) {
    (forall e, x :: |net.expert(e, x)| == net.hidden) && (forall x :: |net.shared(x)| == net.hidden)
  }

  predicate Rectangular(rows: seq<Vec>, n: nat) {
    forall c :: 0 <= c < |rows| ==> |rows[c]| == n
  }

  /** Component j of expert e on x; an expert without data contributes nothing. */
  function Output(net: MoeNet, store: ExpertStore, x: Vec, j: nat): int -> real
    requires ShapedMoe(net) && j < net.hidden
  {
    (e: int) => if store.resident(e) && j < |net.expert(e, x)| then net.expert(e, x)[j] else 0.0
  }

  /** The choices of a batch are well-formed: as many weights as ids for every token. */
  predicate Routed(idx: seq<seq<int>>, wt: seq<seq<real>>, xs: seq<Vec>) {
    |idx| == |wt| == |xs| && forall c :: 0 <= c < |idx| ==> |idx[c]| == |wt[c]|
  }

  /** acc holds, for every token and component, the first u experts of the union. */
  ghost predicate Accumulated(net: MoeNet, store: ExpertStore, uniq: seq<int>, u: nat, idx: seq<seq<int>>,
                              wt: seq<seq<real>>, xs: seq<Vec>, acc: seq<Vec>)
    requires ShapedMoe(net) && Routed(idx, wt, xs) && u <= |uniq|
  {
    && |acc| == |xs| && Rectangular(acc, net.hidden)
    && forall c, j :: 0 <= c < |xs| && 0 <= j < net.hidden ==>
         acc[c][j] == ByExpert(uniq, u, idx[c], wt[c], |idx[c]|, Output(net, store, xs[c], j))
  }

  function Axpy(a: Vec, w: real, d: Vec): Vec
    requires |a| == |d|
  {
    seq(|a|, j requires 0 <= j < |a| => a[j] + w * d[j])
  }

  method SumWeights(ids: seq<int>, ws: seq<real>, e: int) returns (w: real)
    requires |ids| == |ws|
    ensures w == WeightOf(ids, ws, e, |ids|)
  {
    w := 0.0;
    var t := 0;
    while t < |ids|
      invariant 0 <= t <= |ids| && w == WeightOf(ids, ws, e, t)
    {
      if ids[t] == e {
        w := w + ws[t];
      }
      t := t + 1;
    }
  }

  /** The tokens that gave e a weight: their rows, weights and positions, in token order. */
  predicate Gathered(e: int, idx: seq<seq<int>>, wt: seq<seq<real>>, xs: seq<Vec>, n: nat,
                     xb: seq<Vec>, ww: seq<real>, cmap: seq<nat>)
    requires Routed(idx, wt, xs) && n <= |xs|
  {
    && |xb| == |ww| == |cmap|
    && (forall i :: 0 <= i < |cmap| ==> cmap[i] < n && xb[i] == xs[cmap[i]])
    && (forall i :: 0 <= i < |cmap| ==> ww[i] == WeightOf(idx[cmap[i]], wt[cmap[i]], e, |idx[cmap[i]]|))
    && (forall i, k :: 0 <= i < k < |cmap| ==> cmap[i] < cmap[k])
    && (forall c :: 0 <= c < n && c !in cmap ==> WeightOf(idx[c], wt[c], e, |idx[c]|) == 0.0)
  }

  method Gather(e: int, idx: seq<seq<int>>, wt: seq<seq<real>>, xs: seq<Vec>)
    returns (xb: seq<Vec>, ww: seq<real>, cmap: seq<nat>)
    requires Routed(idx, wt, xs)
    ensures Gathered(e, idx, wt, xs, |xs|, xb, ww, cmap)
  {
    xb, ww, cmap := [], [], [];
    var c := 0;
    while c < |xs|
      invariant 0 <= c <= |xs| && Gathered(e, idx, wt, xs, c, xb, ww, cmap)
    {
      var w := SumWeights(idx[c], wt[c], e);
      if w != 0.0 {
        xb, ww, cmap := xb + [xs[c]], ww + [w], cmap + [c];
      }
      c := c + 1;
    }
  }

  /** Adds the weighted expert rows back to the tokens they came from. */
  method Scatter(acc0: seq<Vec>, hidden: nat, yb: seq<Vec>, ww: seq<real>, cmap: seq<nat>) returns (acc: seq<Vec>)
    requires |yb| == |ww| == |cmap| && Rectangular(acc0, hidden) && Rectangular(yb, hidden)
    requires forall i :: 0 <= i < |cmap| ==> cmap[i] < |acc0|
    requires forall i, k :: 0 <= i < k < |cmap| ==> cmap[i] < cmap[k]
    ensures |acc| == |acc0| && Rectangular(acc, hidden)
    ensures forall c :: 0 <= c < |acc| && c !in cmap ==> acc[c] == acc0[c]
    ensures forall i :: 0 <= i < |cmap| ==> acc[cmap[i]] == Axpy(acc0[cmap[i]], ww[i], yb[i])
  {
    acc := acc0;
    var i := 0;
    while i < |cmap|
      invariant 0 <= i <= |cmap| && |acc| == |acc0| && Rectangular(acc, hidden)
      invariant forall c :: 0 <= c < |acc| && c !in cmap[..i] ==> acc[c] == acc0[c]
      invariant forall k :: 0 <= k < i ==> acc[cmap[k]] == Axpy(acc0[cmap[k]], ww[k], yb[k])
    {
      assert cmap[i] !in cmap[..i];
      acc := acc[cmap[i] := Axpy(acc[cmap[i]], ww[i], yb[i])];
      i := i + 1;
    }
  }

  method RunExpert(net: MoeNet, e: int, xb: seq<Vec>) returns (yb: seq<Vec>)
    requires ShapedMoe(net)
    ensures |yb| == |xb| && Rectangular(yb, net.hidden)
    ensures forall i :: 0 <= i < |xb| ==> yb[i] == net.expert(e, xb[i])
  {
    yb := [];
    var i := 0;
    while i < |xb|
      invariant 0 <= i == |yb| <= |xb| && Rectangular(yb, net.hidden)
      invariant forall k :: 0 <= k < i ==> yb[k] == net.expert(e, xb[k])
    {
      yb := yb + [net.expert(e, xb[i])];
      i := i + 1;
    }
  }

  /** What expert uniq[u] adds to component j of token c. */
  function Share(net: MoeNet, store: ExpertStore, e: int, ids: seq<int>, ws: seq<real>, x: Vec, j: nat): real
    requires ShapedMoe(net) && |ids| == |ws| && j < net.hidden
  {
    WeightOf(ids, ws, e, |ids|) * Output(net, store, x, j)(e)
  }

  lemma NextExpert(net: MoeNet, store: ExpertStore, uniq: seq<int>, u: nat, idx: seq<seq<int>>, wt: seq<seq<real>>,
                   xs: seq<Vec>, acc0: seq<Vec>, acc: seq<Vec>)
    requires ShapedMoe(net) && Routed(idx, wt, xs) && u < |uniq|
    requires Accumulated(net, store, uniq, u, idx, wt, xs, acc0) && |acc| == |xs| && Rectangular(acc, net.hidden)
    requires forall c, j :: 0 <= c < |xs| && 0 <= j < net.hidden ==>
               acc[c][j] == acc0[c][j] + Share(net, store, uniq[u], idx[c], wt[c], xs[c], j)
    ensures Accumulated(net, store, uniq, u + 1, idx, wt, xs, acc)
  {
    hide WeightOf;
  }

  /** One expert of the union: gather its tokens, run it, scatter the result. */
  method OneExpert(net: MoeNet, store: ExpertStore, v: View, uniq: seq<int>, u: nat, idx: seq<seq<int>>,
                   wt: seq<seq<real>>, xs: seq<Vec>, acc0: seq<Vec>) returns (acc: seq<Vec>)
    requires ShapedMoe(net) && Routed(idx, wt, xs) && u < |uniq| && v == View(uniq[u], store.resident(uniq[u]))
    requires Accumulated(net, store, uniq, u, idx, wt, xs, acc0)
    ensures Accumulated(net, store, uniq, u + 1, idx, wt, xs, acc)
  {
    hide WeightOf, ByExpert;
    var e := uniq[u];
    acc := acc0;
    var xb, ww, cmap := Gather(e, idx, wt, xs);
    var yb := [];
    if |cmap| > 0 && v.hasData {
      yb := RunExpert(net, e, xb);
      acc := Scatter(acc, net.hidden, yb, ww, cmap);
    }
    forall c, j | 0 <= c < |xs| && 0 <= j < net.hidden
      ensures acc[c][j] == acc0[c][j] + Share(net, store, e, idx[c], wt[c], xs[c], j)
    {
      if c in cmap && v.hasData {
        var i :| 0 <= i < |cmap| && cmap[i] == c;
        assert acc[cmap[i]] == Axpy(acc0[cmap[i]], ww[i], yb[i]);
      } else if c in cmap {
        assert Output(net, store, xs[c], j)(e) == 0.0;
      } else {
        assert WeightOf(idx[c], wt[c], e, |idx[c]|) == 0.0;
      }
    }
    NextExpert(net, store, uniq, u, idx, wt, xs, acc0, acc);
  }

  /** h += scale * routed + shared, token by token. */
  method Finish(net: MoeNet, xs: seq<Vec>, acc: seq<Vec>, hs0: seq<Vec>) returns (hs: seq<Vec>)
    requires ShapedMoe(net) && |xs| == |acc| == |hs0| && Rectangular(acc, net.hidden) && Rectangular(hs0, net.hidden)
    ensures |hs| == |hs0| && Rectangular(hs, net.hidden)
    ensures forall c, j :: 0 <= c < |hs| && 0 <= j < net.hidden ==>
              hs[c][j] == hs0[c][j] + acc[c][j] * net.routedScale + (if net.hasShared then net.shared(xs[c])[j] else 0.0)
  {
    hs := hs0;
    var c := 0;
    while c < |xs|
      invariant 0 <= c <= |xs| && |hs| == |hs0| && Rectangular(hs, net.hidden)
      invariant forall k :: c <= k < |hs| ==> hs[k] == hs0[k]
      invariant forall k, j :: 0 <= k < c && 0 <= j < net.hidden ==>
                  hs[k][j] == hs0[k][j] + acc[k][j] * net.routedScale +
                              (if net.hasShared then net.shared(xs[k])[j] else 0.0)
    {
      var row := Axpy(hs[c], net.routedScale, acc[c]);
      if net.hasShared {
        row := Axpy(row, 1.0, net.shared(xs[c]));
      }
      hs := hs[c := row];
      c := c + 1;
    }
  }

  /** Expert u of the union can be looked up, and the prefetch of its successor succeeds. */
  predicate Serves(net: MoeNet, store: ExpertStore, uniq: seq<int>, u: nat)
    requires u < |uniq|
  {
    store.registered(uniq[u]) && (net.pipe && u + 1 < |uniq| ==> store.prefetchOk(uniq[u + 1]))
  }

  predicate ServesAll(net: MoeNet, store: ExpertStore, uniq: seq<int>) {
    forall u :: 0 <= u < |uniq| ==> Serves(net, store, uniq, u)
  }

  lemma ServesIs(net: MoeNet, store: ExpertStore, uniq: seq<int>, u: nat)
    requires u < |uniq|
    ensures Serves(net, store, uniq, u) ==
            (store.registered(uniq[u]) && (net.pipe && u + 1 < |uniq| ==> store.prefetchOk(uniq[u + 1])))
  {}

  method ZeroRows(net: MoeNet, store: ExpertStore, uniq: seq<int>, idx: seq<seq<int>>, wt: seq<seq<real>>,
                  xs: seq<Vec>) returns (acc: seq<Vec>)
    requires ShapedMoe(net) && Routed(idx, wt, xs)
    ensures Accumulated(net, store, uniq, 0, idx, wt, xs, acc)
  {
    var zero := seq(net.hidden, j => 0.0);
    acc := seq(|xs|, c => zero);
  }

  /** The loop over the union. */
  method RunUnion(net: MoeNet, store: ExpertStore, uniq: seq<int>, idx: seq<seq<int>>, wt: seq<seq<real>>,
                  xs: seq<Vec>) returns (ok: bool, acc: seq<Vec>)
    requires ShapedMoe(net) && Routed(idx, wt, xs) && store.inflight == None
    modifies store
    ensures store.pinned == old(store.pinned) && store.inflight == None
    ensures ok == ServesAll(net, store, uniq)
    ensures ok ==> Accumulated(net, store, uniq, |uniq|, idx, wt, xs, acc)
  {
    hide Accumulated, Routed, Serves, ShapedMoe;
    acc := ZeroRows(net, store, uniq, idx, wt, xs);
    var ui := 0;
    while ui < |uniq|
      invariant 0 <= ui <= |uniq| && Accumulated(net, store, uniq, ui, idx, wt, xs, acc)
      invariant store.pinned == old(store.pinned) && store.inflight == None
      invariant forall u :: 0 <= u < ui ==> Serves(net, store, uniq, u)
    {
      var v;
      ok, v := store.Lookup(uniq[ui]);
      ServesIs(net, store, uniq, ui);
      if !ok {
        var _ := store.WaitPrefetch();
        return;
      }
      if net.pipe && ui + 1 < |uniq| {
        store.PrefetchAsync(uniq[ui + 1]);
      }
      acc := OneExpert(net, store, v, uniq, ui, idx, wt, xs, acc);
      store.Release(v);
      if net.pipe {
        ok := store.WaitPrefetch();
        if !ok {
          return;
        }
      }
      ui := ui + 1;
    }
    ok := true;
  }

  /** The layer's result for one component of one token. */
  function Mixed(net: MoeNet, store: ExpertStore, ids: seq<int>, ws: seq<real>, x: Vec, h: real, j: nat): real
    requires ShapedMoe(net) && |ids| == |ws| && j < net.hidden
  {
    h + ByChoice(ids, ws, |ids|, Output(net, store, x, j)) * net.routedScale +
    (if net.hasShared then net.shared(x)[j] else 0.0)
  }

  /**
   The layer over a batch, whose choices are experts of the layer. It succeeds exactly when the store
   serves every chosen expert; then every token gets its own weighted sum of experts and the shared
   expert once. On every path the views it pinned are released and no prefetch is left outstanding.
   */
  method MoeLayer(net: MoeNet, store: ExpertStore, idx: seq<seq<int>>, wt: seq<seq<real>>, xs: seq<Vec>, hs0: seq<Vec>)
    returns (ok: bool, hs: seq<Vec>, ghost uniq: seq<int>)
    requires ShapedMoe(net) && Routed(idx, wt, xs) && ChoicesBelow(idx, net.experts)
    requires |hs0| == |xs| && Rectangular(hs0, net.hidden) && store.inflight == None
    modifies store
    ensures store.pinned == old(store.pinned) && store.inflight == None
    ensures Increasing(uniq) && IsUnion(uniq, idx) && (forall e :: e in uniq ==> e in Flat(idx))
    ensures ok == ServesAll(net, store, uniq) == AllServed(net, store, idx)
    ensures ok ==> |hs| == |xs| && Rectangular(hs, net.hidden)
    ensures ok ==> forall c, j :: 0 <= c < |xs| && 0 <= j < net.hidden ==>
              hs[c][j] == Mixed(net, store, idx[c], wt[c], xs[c], hs0[c][j], j)
  {
    hide ByExpert, ByChoice, Output, IsUnion, ServesAll, AllServed, Wanted;
    hs := hs0;
    var ids := UnionIds(Flat(idx), if net.experts > 1 then net.experts else 1);
    uniq := ids;
    RoomForAll(uniq, idx, net.experts);
    UnionIsWanted(uniq, idx);
    ServedWhen(net, store, uniq, idx);
    var acc;
    ok, acc := RunUnion(net, store, ids, idx, wt, xs);
    if !ok {
      return;
    }
    hs := Finish(net, xs, acc, hs0);
    forall c, j | 0 <= c < |xs| && 0 <= j < net.hidden
      ensures acc[c][j] == ByChoice(idx[c], wt[c], |idx[c]|, Output(net, store, xs[c], j))
    {
      UnionOfOne(uniq, idx, c);
      GroupedIsPerToken(uniq, idx[c], wt[c], |idx[c]|, Output(net, store, xs[c], j));
    }
  }

  /** What entry t of a token's choices adds to component j: its weighted expert, when it is filled and the expert has data. */
  function Choice(net: MoeNet, store: ExpertStore, ids: seq<int>, ws: seq<real>, x: Vec, j: nat): nat -> real
    requires ShapedMoe(net) && |ids| == |ws| && j < net.hidden
  {
    (t: nat) => if t < |ids| && ids[t] >= 0 && store.resident(ids[t]) then ws[t] * Component(net, ids[t], x, j) else 0.0
  }

  function Component(net: MoeNet, e: int, x: Vec, j: nat): real
    requires ShapedMoe(net) && j < net.hidden
  {
    net.expert(e, x)[j]
  }

  /** The old value, the scaled sum over the token's own choices, and the shared expert. */
  lemma MixedMeaning(net: MoeNet, store: ExpertStore, ids: seq<int>, ws: seq<real>, x: Vec, h: real, j: nat)
    requires ShapedMoe(net) && |ids| == |ws| && j < net.hidden
    ensures Mixed(net, store, ids, ws, x, h, j) ==
            h + net.routedScale * RealSum.Sum(|ids|, Choice(net, store, ids, ws, x, j)) +
            (if net.hasShared then net.shared(x)[j] else 0.0)
  {
    hide Output, Choice;
    ByChoiceMeaning(net, store, ids, ws, x, j, |ids|);
  }

  lemma {:induction false} ByChoiceMeaning(net: MoeNet, store: ExpertStore, ids: seq<int>, ws: seq<real>, x: Vec, j: nat, n: nat)
    requires ShapedMoe(net) && n <= |ids| == |ws| && j < net.hidden
    ensures ByChoice(ids, ws, n, Output(net, store, x, j)) == RealSum.Sum(n, Choice(net, store, ids, ws, x, j))
  {
    if n > 0 {
      ByChoiceMeaning(net, store, ids, ws, x, j, n - 1);
    }
  }

  /** Some token chose expert e. */
  predicate Wanted(idx: seq<seq<int>>, e: int) {
    e >= 0 && exists c :: 0 <= c < |idx| && e in idx[c]
  }

  /** All chosen experts can be looked up and, when prefetching, all but the smallest can be prefetched. */
  ghost predicate AllServed(net: MoeNet, store: ExpertStore, idx: seq<seq<int>>) {
    && (forall e :: Wanted(idx, e) ==> store.registered(e))
    && (net.pipe ==> forall e, d :: Wanted(idx, e) && Wanted(idx, d) && d < e ==> store.prefetchOk(e))
  }

  lemma ServedWhen(net: MoeNet, store: ExpertStore, uniq: seq<int>, idx: seq<seq<int>>)
    requires Increasing(uniq) && forall e :: e in uniq <==> Wanted(idx, e)
    ensures ServesAll(net, store, uniq) <==> AllServed(net, store, idx)
  {
    hide Wanted;
    if ServesAll(net, store, uniq) {
      forall e | Wanted(idx, e)
        ensures store.registered(e) && (net.pipe && e != uniq[0] ==> store.prefetchOk(e))
      {
        var u :| 0 <= u < |uniq| && uniq[u] == e;
        assert Serves(net, store, uniq, u);
        assert u > 0 ==> Serves(net, store, uniq, u - 1);
      }
      assert forall d :: Wanted(idx, d) ==> uniq[0] <= d;
    } else {
      var u :| 0 <= u < |uniq| && !Serves(net, store, uniq, u);
      assert Wanted(idx, uniq[u]) && (u + 1 < |uniq| ==> Wanted(idx, uniq[u + 1]) && uniq[u] < uniq[u + 1]);
    }
  }

  lemma UnionIsWanted(uniq: seq<int>, idx: seq<seq<int>>)
    requires IsUnion(uniq, idx) && forall e :: e in uniq ==> e in Flat(idx)
    ensures forall e :: e in uniq <==> Wanted(idx, e)
  {
    forall e
      ensures e in uniq <==> Wanted(idx, e)
    {
      InFlat(idx, e);
    }
  }

  lemma UnionOfOne(uniq: seq<int>, idx: seq<seq<int>>, c: nat)
    requires IsUnion(uniq, idx) && c < |idx|
    ensures IsUnion(uniq, [idx[c]])
  {}

}
