/**
 What a request means, in terms of the kernels and the callbacks alone: every token is the sampler's choice
 on the cold state of all tokens before it, under the grammar's mask for the text so far, until the first
 token that ends the request.
 */
module Dsv4Meaning {
  import opened Results
  import opened Dsv4Net
  import opened Dsv4Slot
  import opened Dsv4Decode
  import opened Dsv4Draft
  import opened CkptPolicy
  import opened Dsv4Ckpt
  import opened Dsv4Generate

  function Texts(gp: GenParams, ids: seq<int>): seq<string> {
    seq(|ids|, i requires 0 <= i < |ids| => gp.text(ids[i]))
  }

  function Joined(texts: seq<string>): string {
    if texts == [] then "" else Joined(texts[..|texts| - 1]) + texts[|texts| - 1]
  }

  /** The mask after these tokens: there is one when the grammar is ready and tokens can be rendered. */
  function MaskAfter(gp: GenParams, done: seq<int>): Option<seq<bool>> {
    if gp.grammarReady && gp.hasText then Some(gp.mask(Texts(gp, done))) else None
  }

  // ---------------------------------------------------------------------------------------------
  // Constrained decoding
  // ---------------------------------------------------------------------------------------------

  /** The mask is the one for the tokens behind the first n of the history, and the grammar has seen them. */
  ghost predicate Masked(gp: GenParams, d: Dec, n: nat) {
    && n <= |d.history| && d.allow == MaskAfter(gp, d.history[n..])
    && (gp.grammarReady && gp.hasText ==> d.accepted == Texts(gp, d.history[n..]))
  }

  lemma StartMasked(net: Net, gp: GenParams, prompt: seq<int>)
    ensures Masked(gp, StartDec(net, gp, prompt), |prompt|)
  {
    hide Cold;
    assert prompt[|prompt|..] == [];
    assert Texts(gp, []) == [];
  }

  lemma IterMasked(net: Net, gp: GenParams, d: Dec, n: nat)
    requires Masked(gp, d, n) && Iter(net, gp, d).ok && !Iter(net, gp, d).stopped
    ensures Masked(gp, Iter(net, gp, d).d, n)
  {
    hide Dsv4Net.Step, Sample;
    OneMoreText(gp, d.history, n, Sample(net, gp, d).token);
  }

  lemma NextMasked(net: Net, gp: GenParams, d: Dec, emitted: nat, n: nat)
    requires Masked(gp, d, n) && Next(net, gp, d, emitted).ok
    ensures Masked(gp, Next(net, gp, d, emitted).d, n)
  {
    hide Dsv4Net.Step, Sample;
    OneMoreText(gp, d.history, n, Sample(net, gp, d).token);
  }

  lemma OneMoreText(gp: GenParams, history: seq<int>, n: nat, token: int)
    requires n <= |history|
    ensures Texts(gp, (history + [token])[n..]) == Texts(gp, history[n..]) + [gp.text(token)]
  {}

  /** Emitting tokens shows each of them to the grammar; the mask is renewed only afterwards. */
  lemma {:induction false} EmittedTexts(gp: GenParams, d: Dec, batch: seq<int>, n: nat)
    requires n <= |d.history| && (gp.grammarReady && gp.hasText ==> d.accepted == Texts(gp, d.history[n..]))
    ensures var e := EmitAll(gp, d, batch).d;
            && n <= |e.history| && e.allow == d.allow
            && (gp.grammarReady && gp.hasText ==> e.accepted == Texts(gp, e.history[n..]))
    decreases |batch|
  {
    if batch != [] {
      OneMoreText(gp, d.history, n, batch[0]);
      var d1 := Accept(gp, d, batch[0]);
      if !Stops(gp, d1, batch[0]) {
        EmittedTexts(gp, Decoded(gp, d1, batch[0]), batch[1..], n);
      }
    }
  }

  lemma DraftIterMasked(net: Net, gp: GenParams, dr: Drafter, d: Dec, budget: nat, n: nat)
    requires budget > 0 && Masked(gp, d, n)
    requires DraftIter(net, gp, dr, d, budget).ok && !DraftIter(net, gp, dr, d, budget).stopped
    ensures Masked(gp, DraftIter(net, gp, dr, d, budget).d, n)
  {
    hide TurnBatch, Feed, EmitAll, Sample;
    var batch := TurnBatch(dr, d.history, net.pool(d.kv.streams), Sample(net, gp, d).token, budget);
    EmittedTexts(gp, AfterSample(net, gp, d), batch, n);
  }

  // ---------------------------------------------------------------------------------------------
  // A whole request
  // ---------------------------------------------------------------------------------------------

  /** Token k is what the sampler gives for the cold state of the prompt and the tokens before it. */
  ghost predicate Choice(net: Net, gp: GenParams, prompt: seq<int>, tokens: seq<int>, k: nat, rng: nat, out: Sampled)
    requires k < |tokens|
  {
    var before := prompt + tokens[..k];
    && out == gp.sample(net.pool(Cold(net, before).s.streams), before, rng, MaskAfter(gp, tokens[..k]))
    && out.token == tokens[k]
  }

  /** Token k ends the request: a stop id, or a stop string in the text so far. */
  predicate Ends(gp: GenParams, tokens: seq<int>, k: nat)
    requires k < |tokens|
  {
    gp.isStop(tokens[k]) || (gp.hasText && gp.stopHit(Joined(Texts(gp, tokens[..k + 1]))))
  }

  /** From this place on no token but the last ends the request. */
  predicate EndsOnlyLast(gp: GenParams, from: nat, tokens: seq<int>) {
    forall k :: from <= k < |tokens| - 1 ==> !Ends(gp, tokens, k)
  }

  /** The random state before token k. */
  function RngBefore(seed: nat, outs: seq<Sampled>, k: nat): nat
    requires k <= |outs|
  {
    if k > 0 then outs[k - 1].rng else if seed == 0 then 1 else seed
  }

  /** The tokens are chosen one after the other, and none but the last ends the request. */
  ghost predicate Chosen(net: Net, gp: GenParams, prompt: seq<int>, tokens: seq<int>, outs: seq<Sampled>) {
    ChosenFrom(net, gp, prompt, 0, tokens, outs) && EndsOnlyLast(gp, 0, tokens)
  }

  ghost predicate ChosenFrom(net: Net, gp: GenParams, prompt: seq<int>, from: nat, tokens: seq<int>, outs: seq<Sampled>) {
    && |outs| == |tokens|
    && forall k :: from <= k < |tokens| ==> Choice(net, gp, prompt, tokens, k, RngBefore(gp.seed, outs, k), outs[k])
  }

  /** Every token from this place on that does not end the request can be fed. */
  ghost predicate FedFrom(net: Net, gp: GenParams, prompt: seq<int>, from: nat, tokens: seq<int>) {
    forall k :: from <= k < |tokens| && !Ends(gp, tokens, k) ==> Cold(net, prompt + tokens[..k + 1]).ok
  }

  function LogprobsOf(gp: GenParams, outs: seq<Sampled>): seq<real> {
    if gp.logprobs then seq(|outs|, k requires 0 <= k < |outs| => outs[k].logprob) else []
  }

  /** The state of a request after the tokens `done`, chosen as outs. */
  ghost predicate At(net: Net, gp: GenParams, prompt: seq<int>, done: seq<int>, outs: seq<Sampled>, d: Dec) {
    && d.history == prompt + done && Cold(net, d.history) == Fed(true, d.kv) && Masked(gp, d, |prompt|)
    && (gp.hasText ==> d.decoded == Joined(Texts(gp, done)))
    && |outs| == |done| && d.rng == RngBefore(gp.seed, outs, |outs|) && d.lps == LogprobsOf(gp, outs)
  }

  lemma StartAt(net: Net, gp: GenParams, prompt: seq<int>)
    requires Cold(net, prompt).ok
    ensures At(net, gp, prompt, [], [], StartDec(net, gp, prompt))
  {
    StartMasked(net, gp, prompt);
    hide Cold, MaskAfter;
    assert prompt + [] == prompt;
  }

  /** One iteration chooses one token; unless that ends the request, it is fed. */
  lemma IterChooses(net: Net, gp: GenParams, prompt: seq<int>, done: seq<int>, outs: seq<Sampled>, d: Dec)
    requires At(net, gp, prompt, done, outs, d)
    ensures var i := Iter(net, gp, d);
            var tokens, out := done + [i.token], Sample(net, gp, d);
            && Choice(net, gp, prompt, tokens, |done|, d.rng, out)
            && i.stopped == Ends(gp, tokens, |done|)
            && i.d.rng == out.rng && i.d.lps == LogprobsOf(gp, outs + [out])
            && (!i.stopped ==> i.ok == Cold(net, prompt + tokens).ok)
            && (i.stopped ==> i.ok)
            && (i.ok && !i.stopped ==> At(net, gp, prompt, tokens, outs + [out], i.d))
  {
    hide *;
    var i, out := Iter(net, gp, d), Sample(net, gp, d);
    var tokens := done + [i.token];
    assert tokens[..|done|] == done && tokens[..|done| + 1] == tokens;
    assert prompt + tokens == (prompt + done) + [i.token];
    IterParts(net, gp, d);
    TextsMore(gp, done, i.token);
    ChoiceIs(net, gp, prompt, done, outs, d, i.token);
    EndsIs(gp, tokens, |done|);
    AtParts(net, gp, prompt, done, outs, d);
    FeedOne(net, d.kv, i.token);
    ColdMore(net, prompt + done, d.kv, i.token);
    LogprobsMore(gp, outs, out);
    if i.ok && !i.stopped {
      IterMasked(net, gp, d, |prompt|);
      AtNext(net, gp, prompt, tokens, outs + [out], i.d);
    }
  }

  /** What an iteration does to the state. */
  lemma IterParts(net: Net, gp: GenParams, d: Dec)
    ensures var i, s := Iter(net, gp, d), Sample(net, gp, d);
            && i.token == s.token && i.d.rng == s.rng && i.d.lps == (if gp.logprobs then d.lps + [s.logprob] else d.lps)
            && i.d.history == d.history + [i.token]
            && i.stopped == (gp.isStop(i.token) || (gp.hasText && gp.stopHit(d.decoded + gp.text(i.token))))
            && (i.stopped ==> i.ok)
            && (!i.stopped ==> Dsv4Net.Step(net, d.kv, i.token) == Fed(i.ok, i.d.kv))
            && (!i.stopped ==> i.d.decoded == if gp.hasText then d.decoded + gp.text(i.token) else d.decoded)
  {
    hide Dsv4Net.Step, Sample;
  }

  lemma ChoiceIs(net: Net, gp: GenParams, prompt: seq<int>, done: seq<int>, outs: seq<Sampled>, d: Dec, token: int)
    requires At(net, gp, prompt, done, outs, d) && token == Sample(net, gp, d).token
    ensures Choice(net, gp, prompt, done + [token], |done|, d.rng, Sample(net, gp, d))
  {
    hide Cold;
    assert (done + [token])[..|done|] == done && (prompt + done)[|prompt|..] == done;
  }

  lemma EndsIs(gp: GenParams, tokens: seq<int>, k: nat)
    requires k + 1 == |tokens|
    ensures Ends(gp, tokens, k) <==> gp.isStop(tokens[k]) || (gp.hasText && gp.stopHit(Joined(Texts(gp, tokens))))
  {
    assert tokens[..k + 1] == tokens;
  }

  lemma LogprobsMore(gp: GenParams, outs: seq<Sampled>, out: Sampled)
    ensures LogprobsOf(gp, outs + [out]) == if gp.logprobs then LogprobsOf(gp, outs) + [out.logprob] else LogprobsOf(gp, outs)
  {}

  lemma AtNext(net: Net, gp: GenParams, prompt: seq<int>, done: seq<int>, outs: seq<Sampled>, d: Dec)
    requires d.history == prompt + done && Cold(net, prompt + done) == Fed(true, d.kv) && Masked(gp, d, |prompt|)
    requires (gp.hasText ==> d.decoded == Joined(Texts(gp, done))) && |outs| == |done| > 0
    requires d.rng == outs[|outs| - 1].rng && d.lps == LogprobsOf(gp, outs)
    ensures At(net, gp, prompt, done, outs, d)
  {
    hide Cold, Masked, LogprobsOf;
  }

  lemma TextsMore(gp: GenParams, done: seq<int>, token: int)
    ensures Texts(gp, done + [token]) == Texts(gp, done) + [gp.text(token)]
    ensures Joined(Texts(gp, done + [token])) == Joined(Texts(gp, done)) + gp.text(token)
  {
    var t := Texts(gp, done) + [gp.text(token)];
    assert Texts(gp, done + [token]) == t;
    assert t[..|t| - 1] == Texts(gp, done);
  }

  lemma ColdMore(net: Net, ids: seq<int>, st: KvState, token: int)
    requires Cold(net, ids) == Fed(true, st)
    ensures Cold(net, ids + [token]) == Feed(net, st, [token])
  {
    FeedAppend(net, Empty(net), ids, [token]);
  }

  /** Generation goes on choosing. */
  lemma {:induction false} PlainChooses(net: Net, gp: GenParams, prompt: seq<int>, done: seq<int>, outs: seq<Sampled>, d: Dec,
                                        n: int) returns (all: seq<Sampled>)
    requires At(net, gp, prompt, done, outs, d)
    ensures var p := Plain(net, gp, d, n);
            var tokens := done + p.tokens;
            && |all| == |tokens| && outs <= all && (p.ok ==> p.d.rng == RngBefore(gp.seed, all, |all|))
            && ChosenFrom(net, gp, prompt, |done|, tokens, all) && EndsOnlyLast(gp, |done|, tokens)
            && (p.ok <==> FedFrom(net, gp, prompt, |done|, tokens))
            && (p.ok ==> p.d.lps == LogprobsOf(gp, all))
            && (p.ok ==> p.stopped == (p.tokens != [] && Ends(gp, tokens, |tokens| - 1)))
            && (p.ok && |p.tokens| < n ==> p.stopped)
    decreases if n > 0 then n else 0
  {
    hide Iter, Choice, Ends, Cold, At, Sample, ChosenFrom, EndsOnlyLast, FedFrom, LogprobsOf, RngBefore;
    AtParts(net, gp, prompt, done, outs, d);
    if n <= 0 {
      all := outs;
      assert done + [] == done;
      NothingMore(net, gp, prompt, done, outs);
    } else {
      var i, out := Iter(net, gp, d), Sample(net, gp, d);
      var tokens1, outs1 := done + [i.token], outs + [out];
      IterChooses(net, gp, prompt, done, outs, d);
      RngIs(gp.seed, outs, out);
      OneMore(net, gp, prompt, done, outs, i.token, out);
      if i.ok && !i.stopped {
        all := PlainChooses(net, gp, prompt, tokens1, outs1, i.d, n - 1);
        var p, rest := Plain(net, gp, d, n), Plain(net, gp, i.d, n - 1);
        assert done + p.tokens == tokens1 + rest.tokens;
        AndThen(net, gp, prompt, |done|, tokens1, outs1, rest.tokens, all);
      } else {
        all := outs1;
        assert done + Plain(net, gp, d, n).tokens == tokens1;
      }
    }
  }

  lemma RngIs(seed: nat, outs: seq<Sampled>, out: Sampled)
    ensures RngBefore(seed, outs + [out], |outs| + 1) == out.rng
    ensures RngBefore(seed, outs + [out], |outs|) == RngBefore(seed, outs, |outs|)
  {}

  lemma NothingMore(net: Net, gp: GenParams, prompt: seq<int>, done: seq<int>, outs: seq<Sampled>)
    requires |outs| == |done|
    ensures ChosenFrom(net, gp, prompt, |done|, done, outs) && EndsOnlyLast(gp, |done|, done)
    ensures FedFrom(net, gp, prompt, |done|, done)
  {}

  lemma OneMore(net: Net, gp: GenParams, prompt: seq<int>, done: seq<int>, outs: seq<Sampled>, token: int, out: Sampled)
    requires |outs| == |done|
    requires Choice(net, gp, prompt, done + [token], |done|, RngBefore(gp.seed, outs, |outs|), out)
    ensures var tokens := done + [token];
            && ChosenFrom(net, gp, prompt, |done|, tokens, outs + [out]) && EndsOnlyLast(gp, |done|, tokens)
            && (FedFrom(net, gp, prompt, |done|, tokens) <==> (!Ends(gp, tokens, |done|) ==> Cold(net, prompt + tokens).ok))
  {
    hide Choice, Ends, Cold, RngBefore;
    RngIs(gp.seed, outs, out);
    var tokens := done + [token];
    assert tokens[..|done| + 1] == tokens;
  }

  /** What holds of the tokens a and of the tokens behind them holds of all. */
  lemma AndThen(net: Net, gp: GenParams, prompt: seq<int>, from: nat, a: seq<int>, outs: seq<Sampled>, b: seq<int>,
                all: seq<Sampled>)
    requires from < |a| && outs <= all && !Ends(gp, a, |a| - 1)
    requires ChosenFrom(net, gp, prompt, from, a, outs) && ChosenFrom(net, gp, prompt, |a|, a + b, all)
    requires EndsOnlyLast(gp, from, a) && EndsOnlyLast(gp, |a|, a + b) && FedFrom(net, gp, prompt, from, a)
    ensures ChosenFrom(net, gp, prompt, from, a + b, all) && EndsOnlyLast(gp, from, a + b)
    ensures FedFrom(net, gp, prompt, from, a + b) <==> FedFrom(net, gp, prompt, |a|, a + b)
    ensures b == [] ==> !Ends(gp, a + b, |a + b| - 1)
  {
    hide Choice, Ends, Cold, RngBefore;
    forall k | from <= k < |a|
      ensures Choice(net, gp, prompt, a + b, k, RngBefore(gp.seed, all, k), all[k]) && !Ends(gp, a + b, k)
      ensures Cold(net, prompt + (a + b)[..k + 1]).ok
    {
      assert (a + b)[..k + 1] == a[..k + 1] && outs[k] == all[k];
      SameRng(gp.seed, outs, all, k);
      SameChoice(net, gp, prompt, a, a + b, k, RngBefore(gp.seed, all, k), all[k]);
    }
  }

  lemma SameRng(seed: nat, outs: seq<Sampled>, all: seq<Sampled>, k: nat)
    requires k <= |outs| && outs <= all
    ensures RngBefore(seed, outs, k) == RngBefore(seed, all, k)
  {}

  lemma AtParts(net: Net, gp: GenParams, prompt: seq<int>, done: seq<int>, outs: seq<Sampled>, d: Dec)
    requires At(net, gp, prompt, done, outs, d)
    ensures |outs| == |done| && d.rng == RngBefore(gp.seed, outs, |outs|) && d.lps == LogprobsOf(gp, outs)
    ensures d.history == prompt + done && Cold(net, prompt + done) == Fed(true, d.kv) && Masked(gp, d, |prompt|)
    ensures gp.hasText ==> d.decoded == Joined(Texts(gp, done))
  {
    hide Cold, Masked, LogprobsOf;
  }

  /** A token's choice and end do not depend on the tokens behind it. */
  lemma SameChoice(net: Net, gp: GenParams, prompt: seq<int>, a: seq<int>, b: seq<int>, k: nat, rng: nat, out: Sampled)
    requires k < |a| && a <= b
    ensures Choice(net, gp, prompt, a, k, rng, out) <==> Choice(net, gp, prompt, b, k, rng, out)
    ensures Ends(gp, a, k) <==> Ends(gp, b, k)
  {
    assert a[..k] == b[..k];
    SameEnd(gp, a, b, k);
  }

  lemma SameEnd(gp: GenParams, a: seq<int>, b: seq<int>, k: nat)
    requires k < |a| && a <= b
    ensures Ends(gp, a, k) <==> Ends(gp, b, k)
  {
    assert a[..k + 1] == b[..k + 1];
  }

  /**
   Plain generation of a request: the tokens are chosen one after the other; it succeeds exactly when every
   token that does not end the request can be fed; it stops exactly at a token that ends the request, and
   gives fewer tokens than asked for only then.
   */
  lemma RequestMeaning(net: Net, gp: GenParams, prompt: seq<int>) returns (outs: seq<Sampled>)
    requires Cold(net, prompt).ok
    ensures var p := Plain(net, gp, StartDec(net, gp, prompt), gp.maxNew);
            && Chosen(net, gp, prompt, p.tokens, outs) && (p.ok <==> FedFrom(net, gp, prompt, 0, p.tokens))
            && |p.tokens| <= Budget(gp)
            && (p.ok ==> p.stopped == (p.tokens != [] && Ends(gp, p.tokens, |p.tokens| - 1)))
            && (p.ok && |p.tokens| < gp.maxNew ==> p.stopped)
            && (p.ok ==> p.d.lps == LogprobsOf(gp, outs))
  {
    hide Plain, Cold, Choice, Ends, StartDec;
    var d := StartDec(net, gp, prompt);
    StartAt(net, gp, prompt);
    outs := PlainChooses(net, gp, prompt, [], [], d, gp.maxNew);
    PlainTokens(net, gp, d, gp.maxNew);
    var tokens := Plain(net, gp, d, gp.maxNew).tokens;
    assert [] + tokens == tokens;
  }

  // ---------------------------------------------------------------------------------------------
  // One turn with drafting
  // ---------------------------------------------------------------------------------------------

  /** The state of a request after the tokens `done`, whatever drafted or chose them. */
  ghost predicate After(net: Net, gp: GenParams, prompt: seq<int>, done: seq<int>, d: Dec) {
    && d.history == prompt + done && Cold(net, d.history) == Fed(true, d.kv) && Masked(gp, d, |prompt|)
    && (gp.hasText ==> d.decoded == Joined(Texts(gp, done)))
  }

  /** Emitting goes on up to the first token that ends the request. */
  lemma {:induction false} EmittedEnds(gp: GenParams, d: Dec, done: seq<int>, batch: seq<int>)
    requires gp.hasText ==> d.decoded == Joined(Texts(gp, done))
    ensures var e := EmitAll(gp, d, batch);
            var out := done + batch[..e.n];
            && e.d.rng == d.rng && (!e.stop && gp.hasText ==> e.d.decoded == Joined(Texts(gp, out)))
            && EndsOnlyLast(gp, |done|, out)
            && (batch != [] ==> e.stop == Ends(gp, out, |out| - 1))
    decreases |batch|
  {
    hide Texts, Joined, Ends;
    if batch == [] {
      assert done + batch[..0] == done;
    } else {
      var token, rest, done1 := batch[0], batch[1..], done + [batch[0]];
      var d1 := Accept(gp, d, token);
      TextsMore(gp, done, token);
      EndsIs(gp, done1, |done|);
      if Stops(gp, d1, token) {
        assert done + batch[..1] == done1;
      } else {
        var d2 := Decoded(gp, d1, token);
        EmittedEnds(gp, d2, done1, rest);
        var e := EmitAll(gp, d2, rest);
        var out := done1 + rest[..e.n];
        assert done + batch[..1 + e.n] == out;
        SameEnd(gp, done1, out, |done|);
        if rest == [] {
          assert out == done1;
        }
      }
    }
  }

  /**
   A turn samples one token, in the state and under the mask of all tokens before it. When the forward head's
   draft begins with that token the turn goes on with the draft, otherwise the token stands alone; either way
   it ends at the first token that ends the request, and if none does, all its tokens are fed.
   */
  lemma TurnMeaning(net: Net, gp: GenParams, dr: Drafter, prompt: seq<int>, done: seq<int>, d: Dec, budget: nat)
    requires budget > 0 && After(net, gp, prompt, done, d)
    ensures var r := DraftIter(net, gp, dr, d, budget);
            var lastH, tokens := net.pool(d.kv.streams), done + r.batch;
            var s := gp.sample(lastH, prompt + done, d.rng, MaskAfter(gp, done));
            var draft := Draft(dr, prompt + done, lastH, budget);
            && r.batch[0] == s.token && r.d.rng == s.rng
            && (if dr.mode == Forward && |lastH| == dr.hidden && draft != [] && draft[0] == s.token
                then r.batch <= draft && (!r.stopped ==> r.batch == draft)
                else r.batch == [s.token])
            && EndsOnlyLast(gp, |done|, tokens)
            && r.stopped == Ends(gp, tokens, |tokens| - 1) && (r.stopped ==> r.ok)
            && (!r.stopped ==> r.ok == Cold(net, prompt + tokens).ok)
            && (r.ok && !r.stopped ==> After(net, gp, prompt, tokens, r.d))
  {
    hide Cold, Feed, Draft, EmitAll, Ends, Masked, Texts, Joined, MaskAfter;
    var s := Sample(net, gp, d);
    var d1 := AfterSample(net, gp, d);
    var batch := TurnBatch(dr, d.history, net.pool(d.kv.streams), s.token, budget);
    SampleIs(net, gp, prompt, done, d);
    EmittedEnds(gp, d1, done, batch);
    EmitHistory(gp, d1, batch);
    assert batch[..|batch|] == batch;
    assert prompt + (done + batch) == (prompt + done) + batch;
    FeedAppend(net, Empty(net), prompt + done, batch);
    ColdThen(net, prompt + done, batch, d.kv);
    var r := DraftIter(net, gp, dr, d, budget);
    if r.ok && !r.stopped {
      DraftIterMasked(net, gp, dr, d, budget, |prompt|);
    }
  }

  lemma SampleIs(net: Net, gp: GenParams, prompt: seq<int>, done: seq<int>, d: Dec)
    requires After(net, gp, prompt, done, d)
    ensures Sample(net, gp, d) == gp.sample(net.pool(d.kv.streams), prompt + done, d.rng, MaskAfter(gp, done))
  {
    hide Cold, MaskAfter;
    assert (prompt + done)[|prompt|..] == done;
  }

  lemma ColdThen(net: Net, a: seq<int>, b: seq<int>, st: KvState)
    requires Cold(net, a) == Fed(true, st)
    ensures Cold(net, a + b) == Feed(net, st, b)
  {
    FeedAppend(net, Empty(net), a, b);
  }

  /**
   Generation with drafting of any kind: no token but the last ends the request; it stops exactly at a token
   that does, and gives fewer tokens than asked for only then.
   */
  lemma {:induction false} DraftedEnds(net: Net, gp: GenParams, dr: Drafter, prompt: seq<int>, done: seq<int>, d: Dec, n: int)
    requires After(net, gp, prompt, done, d)
    ensures var p := Drafted(net, gp, dr, d, n);
            var tokens := done + p.tokens;
            && EndsOnlyLast(gp, |done|, tokens)
            && (p.ok ==> p.stopped == (p.tokens != [] && Ends(gp, tokens, |tokens| - 1)))
            && (p.ok && |p.tokens| < n ==> p.stopped)
            && (p.ok && !p.stopped ==> After(net, gp, prompt, tokens, p.d))
    decreases if n > 0 then n else 0
  {
    hide DraftIter, After, Ends, EndsOnlyLast;
    if n <= 0 {
      assert done + [] == done;
      NothingEnds(gp, done);
    } else {
      var r := DraftIter(net, gp, dr, d, n);
      var tokens := done + r.batch;
      TurnEnds(net, gp, dr, prompt, done, d, n);
      if r.ok && !r.stopped {
        DraftedEnds(net, gp, dr, prompt, tokens, r.d, n - |r.batch|);
        var rest := Drafted(net, gp, dr, r.d, n - |r.batch|).tokens;
        assert done + (r.batch + rest) == tokens + rest;
        EndsLater(gp, |done|, tokens, rest);
      }
    }
  }

  lemma NothingEnds(gp: GenParams, done: seq<int>)
    ensures EndsOnlyLast(gp, |done|, done)
  {}

  lemma TurnEnds(net: Net, gp: GenParams, dr: Drafter, prompt: seq<int>, done: seq<int>, d: Dec, budget: nat)
    requires budget > 0 && After(net, gp, prompt, done, d)
    ensures var r := DraftIter(net, gp, dr, d, budget);
            var tokens := done + r.batch;
            && EndsOnlyLast(gp, |done|, tokens) && r.stopped == Ends(gp, tokens, |tokens| - 1)
            && (r.ok && !r.stopped ==> After(net, gp, prompt, tokens, r.d))
  {
    hide *;
    TurnMeaning(net, gp, dr, prompt, done, d, budget);
  }

  lemma EndsLater(gp: GenParams, from: nat, a: seq<int>, b: seq<int>)
    requires from < |a| && EndsOnlyLast(gp, from, a) && !Ends(gp, a, |a| - 1) && EndsOnlyLast(gp, |a|, a + b)
    ensures EndsOnlyLast(gp, from, a + b)
    ensures b == [] ==> !Ends(gp, a + b, |a + b| - 1)
  {
    hide Ends;
    forall k | from <= k < |a|
      ensures !Ends(gp, a + b, k)
    {
      SameEnd(gp, a, a + b, k);
    }
  }

  lemma StartsAfter(net: Net, gp: GenParams, prompt: seq<int>)
    requires Cold(net, prompt).ok
    ensures After(net, gp, prompt, [], StartDec(net, gp, prompt))
  {
    StartAt(net, gp, prompt);
    hide Cold, MaskAfter;
  }

  /**
   A whole request as it is answered, whatever slot and cache it runs with and however it drafts: tokens up to
   the first that ends it. Except with forward drafts of two or more tokens they are chosen one after the other.
   */
  method Answer(e: Engine, net: Net, cfg: CkptConfig, s: Slot, useSlot: bool, prompt: seq<int>, gp: GenParams, dr: Drafter,
                disk: seq<PrefixCkpt>, maxSeq: int)
    returns (st: Status, tokens: seq<int>, byText: bool, reuse: nat, ghost outs: seq<Sampled>)
    requires ValidConfig(cfg) && Shaped(net, cfg.width) && AllSound(net, e.ckpts) && Reusable(net, s)
    requires forall i :: 0 <= i < |disk| && Insertable(disk[i]) ==> Sound(net, disk[i])
    requires |prompt| <= maxSeq || gp.maxNew >= -256
    modifies e, s
    ensures st == Ok ==>
              && |tokens| <= Budget(gp) && EndsOnlyLast(gp, 0, tokens)
              && (DraftsPlainly(dr, gp.maxNew) ==> Chosen(net, gp, prompt, tokens, outs) && FedFrom(net, gp, prompt, 0, tokens))
              && (|tokens| < gp.maxNew ==> tokens != [] && Ends(gp, tokens, |tokens| - 1))
              && (byText <==> tokens != [] && Ends(gp, tokens, |tokens| - 1) && !gp.isStop(tokens[|tokens| - 1]))
  {
    hide Plain, Cold, StartDec, Shaped, Sound, Drafted, Chosen, FedFrom, Ends, TakesLongest, FailedFrom, Reusable, Consistent;
    outs := [];
    if prompt != [] && Cold(net, prompt).ok {
      outs := RequestMeaning(net, gp, prompt);
      StartsAfter(net, gp, prompt);
      var d := StartDec(net, gp, prompt);
      DraftedEnds(net, gp, dr, prompt, [], d, gp.maxNew);
      assert [] + Drafted(net, gp, dr, d, gp.maxNew).tokens == Drafted(net, gp, dr, d, gp.maxNew).tokens;
    }
    st, tokens, byText, reuse := Generate(e, net, cfg, s, useSlot, prompt, gp, dr, disk, maxSeq);
  }
}
