/**
 Token generation as pure functions: plain generation, the one-token-per-call interface, and what
 relates them. `Dec` is everything a later token can depend on.
 */
module Dsv4Decode {
  import opened Results
  import opened Dsv4Net
  import opened Dsv4Slot

  datatype Dec = Dec(
    kv: KvState,
    history: seq<int>,
    rng: nat,
    accepted: seq<string>,
    allow: Option<seq<bool>>,
    decoded: string,
    lps: seq<real>
  )

  function Sample(net: Net, gp: GenParams, d: Dec): Sampled {
    gp.sample(net.pool(d.kv.streams), d.history, d.rng, d.allow)
  }

  function AfterSample(net: Net, gp: GenParams, d: Dec): Dec {
    var s := Sample(net, gp, d);
    d.(rng := s.rng, lps := if gp.logprobs then d.lps + [s.logprob] else d.lps)
  }

  /** The token joins the history and the grammar. */
  function Accept(gp: GenParams, d: Dec, token: int): Dec {
    d.(history := d.history + [token],
       accepted := if GrammarOn(gp) then d.accepted + [gp.text(token)] else d.accepted)
  }

  /** The token's text joins the decoded text, unless its id already stops. */
  function Decoded(gp: GenParams, d: Dec, token: int): Dec {
    if gp.hasText && !gp.isStop(token) then d.(decoded := d.decoded + gp.text(token)) else d
  }

  predicate Stops(gp: GenParams, d: Dec, token: int) {
    gp.isStop(token) || (gp.hasText && gp.stopHit(d.decoded + gp.text(token)))
  }

  function Remask(gp: GenParams, d: Dec): Dec {
    if GrammarOn(gp) then d.(allow := Some(gp.mask(d.accepted))) else d
  }

  /** One iteration of generation without drafting. */
  datatype IterOut = IterOut(ok: bool, token: int, stopped: bool, d: Dec)

  function Iter(net: Net, gp: GenParams, d: Dec): IterOut {
    var token := Sample(net, gp, d).token;
    var d1 := Accept(gp, AfterSample(net, gp, d), token);
    var d2 := Decoded(gp, d1, token);
    if Stops(gp, d1, token) then IterOut(true, token, true, d2)
    else
      var f := Step(net, d2.kv, token);
      IterOut(f.ok, token, false, Remask(gp, d2.(kv := f.s)))
  }

  datatype GenOut = GenOut(ok: bool, tokens: seq<int>, stopped: bool, d: Dec)

  /** Generation of at most n tokens without drafting. */
  function Plain(net: Net, gp: GenParams, d: Dec, n: int): GenOut
    decreases if n > 0 then n else 0
  {
    if n <= 0 then GenOut(true, [], false, d)
    else
      var i := Iter(net, gp, d);
      if !i.ok || i.stopped then GenOut(i.ok, [i.token], i.stopped, i.d)
      else
        var r := Plain(net, gp, i.d, n - 1);
        GenOut(r.ok, [i.token] + r.tokens, r.stopped, r.d)
  }

  lemma {:induction false} PlainTokens(net: Net, gp: GenParams, d: Dec, n: int)
    ensures var r := Plain(net, gp, d, n);
            |r.tokens| <= (if n > 0 then n else 0) && r.d.history == d.history + r.tokens
    decreases if n > 0 then n else 0
  {
    hide Iter;
    if n > 0 {
      var i := Iter(net, gp, d);
      IterHistory(net, gp, d);
      if i.ok && !i.stopped {
        PlainTokens(net, gp, i.d, n - 1);
      }
    }
  }

  lemma IterHistory(net: Net, gp: GenParams, d: Dec)
    ensures Iter(net, gp, d).d.history == d.history + [Iter(net, gp, d).token]
  {}

  // ---------------------------------------------------------------------------------------------
  // One token per call
  // ---------------------------------------------------------------------------------------------

  /** A call of next_token: the sampled token, whether the request is finished, the slot afterwards. */
  datatype NextOut = NextOut(ok: bool, token: int, done: bool, d: Dec, emitted: nat)

  predicate Exhausted(gp: GenParams, emitted: nat) {
    gp.maxNew <= 0 || emitted >= gp.maxNew
  }

  /** The part of a call before the forward pass. */
  function Choose(net: Net, gp: GenParams, d: Dec, emitted: nat): NextOut {
    if Exhausted(gp, emitted) then NextOut(true, -1, true, d, emitted)
    else
      var token := Sample(net, gp, d).token;
      var d1 := Accept(gp, AfterSample(net, gp, d), token);
      var idStop := gp.isStop(token) || emitted + 1 >= gp.maxNew;
      if idStop then NextOut(true, token, true, d1, emitted + 1)
      else
        NextOut(true, token, gp.hasText && gp.stopHit(d1.decoded + gp.text(token)), Decoded(gp, d1, token), emitted + 1)
  }

  function Next(net: Net, gp: GenParams, d: Dec, emitted: nat): NextOut {
    var c := Choose(net, gp, d, emitted);
    if Exhausted(gp, emitted) then c
    else if c.done then c.(d := Remask(gp, c.d))
    else
      var f := Step(net, c.d.kv, c.token);
      c.(ok := f.ok, d := Remask(gp, c.d.(kv := f.s)))
  }

  datatype DrainOut = DrainOut(ok: bool, tokens: seq<int>, d: Dec)

  /** Calling next_token until it reports that the request is finished. */
  function Drain(net: Net, gp: GenParams, d: Dec, emitted: nat): DrainOut
    decreases if gp.maxNew > emitted then gp.maxNew - emitted else 0
  {
    if Exhausted(gp, emitted) then DrainOut(true, [], d)
    else
      var c := Next(net, gp, d, emitted);
      if !c.ok || c.done then DrainOut(c.ok, [c.token], c.d)
      else
        var r := Drain(net, gp, c.d, c.emitted);
        DrainOut(r.ok, [c.token] + r.tokens, r.d)
  }

  /** The one step generation takes that the calls do not: the forward pass of the last token, when
      the token limit and not a stop ended the request. */
  predicate LastStepOk(net: Net, q: DrainOut, p: GenOut) {
    p.stopped || q.tokens == [] || Step(net, q.d.kv, q.tokens[|q.tokens| - 1]).ok
  }

  function AfterLastStep(net: Net, q: DrainOut, p: GenOut): KvState {
    if p.stopped || q.tokens == [] then q.d.kv else Step(net, q.d.kv, q.tokens[|q.tokens| - 1]).s
  }

  /**
   Repeated next_token calls yield exactly the tokens of plain generation, with the same history,
   random state and log-probabilities. Generation succeeds exactly when the calls do and the forward
   pass of a last token cut off by the limit does; that pass is also the only difference in the cache.
   */
  lemma {:induction false} DrainIsPlain(net: Net, gp: GenParams, d: Dec, emitted: nat)
    ensures var p, q := Plain(net, gp, d, gp.maxNew - emitted), Drain(net, gp, d, emitted);
            p.ok == (q.ok && LastStepOk(net, q, p))
    ensures var p, q := Plain(net, gp, d, gp.maxNew - emitted), Drain(net, gp, d, emitted);
            q.ok ==> q.tokens == p.tokens && q.d.history == p.d.history && q.d.rng == p.d.rng && q.d.lps == p.d.lps &&
                     p.d.kv == AfterLastStep(net, q, p)
    decreases if gp.maxNew > emitted then gp.maxNew - emitted else 0
  {
    hide Step, Sample;
    if !Exhausted(gp, emitted) {
      var i, c := Iter(net, gp, d), Next(net, gp, d, emitted);
      NextIsIter(net, gp, d, emitted);
      if emitted + 1 < gp.maxNew && i.ok && !i.stopped {
        DrainIsPlain(net, gp, i.d, emitted + 1);
      } else if emitted + 1 == gp.maxNew {
        assert Plain(net, gp, i.d, 0) == GenOut(true, [], false, i.d);
        assert [i.token] + [] == [i.token];
      }
    }
  }

  /** No expert ever fails to load, which a caller can see from the store. */
  ghost predicate AlwaysServes(net: Net) {
    forall l: nat, x :: net.ffn(l, x).Some?
  }

  lemma {:induction false} ServedLayers(net: Net, l: nat, rows: seq<seq<Row>>, st: Vec)
    requires AlwaysServes(net)
    ensures Layers(net, l, rows, st).ok
    decreases |rows|
  {
    if rows != [] {
      ServedLayers(net, l + 1, rows[1..], Layer(net, l, rows[0], st).st);
    }
  }

  lemma {:induction false} ServedPlain(net: Net, gp: GenParams, d: Dec, n: int)
    requires AlwaysServes(net)
    ensures Plain(net, gp, d, n).ok
    decreases if n > 0 then n else 0
  {
    hide Layers;
    if n > 0 {
      var i := Iter(net, gp, d);
      IterServed(net, gp, d);
      if !i.stopped {
        ServedPlain(net, gp, i.d, n - 1);
      }
    }
  }

  lemma IterServed(net: Net, gp: GenParams, d: Dec)
    requires AlwaysServes(net)
    ensures Iter(net, gp, d).ok
  {
    hide Layers;
    ServedLayers(net, 0, d.kv.rows, net.embed(Sample(net, gp, d).token));
  }

  /** With such a store generation and the calls both succeed, so they agree completely on the tokens. */
  lemma ServedAgree(net: Net, gp: GenParams, d: Dec)
    requires AlwaysServes(net)
    ensures var p, q := Plain(net, gp, d, gp.maxNew), Drain(net, gp, d, 0);
            p.ok && q.ok && q.tokens == p.tokens && q.d.history == p.d.history && q.d.rng == p.d.rng
  {
    hide Plain, Drain;
    ServedPlain(net, gp, d, gp.maxNew);
    DrainIsPlain(net, gp, d, 0);
  }

  /** One call against one iteration. */
  lemma NextIsIter(net: Net, gp: GenParams, d: Dec, emitted: nat)
    requires !Exhausted(gp, emitted)
    ensures var i, c := Iter(net, gp, d), Next(net, gp, d, emitted);
            c.token == i.token && c.emitted == emitted + 1
    ensures var i, c := Iter(net, gp, d), Next(net, gp, d, emitted);
            emitted + 1 < gp.maxNew ==>
              c.ok == i.ok && c.done == i.stopped && (!c.done ==> c.d == i.d) &&
              c.d.history == i.d.history && c.d.rng == i.d.rng && c.d.lps == i.d.lps && c.d.kv == i.d.kv
    ensures var i, c := Iter(net, gp, d), Next(net, gp, d, emitted);
            emitted + 1 == gp.maxNew ==>
              c.ok && c.done && c.d.history == i.d.history && c.d.rng == i.d.rng && c.d.lps == i.d.lps &&
              (if i.stopped then i.ok && c.d.kv == i.d.kv else Fed(i.ok, i.d.kv) == Step(net, c.d.kv, i.token))
  {
    hide Step, Sample;
  }

  // ---------------------------------------------------------------------------------------------
  // Several slots
  // ---------------------------------------------------------------------------------------------

  datatype SlotVal = SlotVal(gp: GenParams, d: Dec, emitted: nat)

  /** next_token on slot i of the engine. */
  function NextAt(net: Net, ss: seq<SlotVal>, i: nat): seq<SlotVal>
    requires i < |ss|
  {
    var c := Next(net, ss[i].gp, ss[i].d, ss[i].emitted);
    ss[i := SlotVal(ss[i].gp, c.d, c.emitted)]
  }

  /** Separate calls, one after another, in the given order of slots. */
  function InOrder(net: Net, ss: seq<SlotVal>, order: seq<nat>): seq<SlotVal>
    requires forall k :: 0 <= k < |order| ==> order[k] < |ss|
    decreases |order|
  {
    if order == [] then ss else InOrder(net, NextAt(net, ss, order[0]), order[1..])
  }

  predicate NoRepeat(order: seq<nat>) {
    forall j, k :: 0 <= j < k < |order| ==> order[j] != order[k]
  }

  /** Calls on distinct slots do not see each other: every order gives each slot its own next state. */
  lemma {:induction false} OrderDoesNotMatter(net: Net, ss: seq<SlotVal>, order: seq<nat>, i: nat)
    requires (forall k :: 0 <= k < |order| ==> order[k] < |ss|) && NoRepeat(order) && i < |ss|
    ensures |InOrder(net, ss, order)| == |ss|
    ensures InOrder(net, ss, order)[i] == if i in order then NextAt(net, ss, i)[i] else ss[i]
    decreases |order|
  {
    hide Next;
    if order != [] {
      var ss1 := NextAt(net, ss, order[0]);
      OrderDoesNotMatter(net, ss1, order[1..], i);
      if i == order[0] {
        assert i !in order[1..];
      } else {
        assert ss1[i] == ss[i];
        assert i in order <==> i in order[1..];
      }
    }
  }
}
