/**
 The generation entry points on slots: `generate` with its three kinds of drafting, and the
 incremental interface begin_generate / next_token / next_tokens.
 */
module Dsv4Generate {
  import opened Results
  import opened Dsv4Net
  import opened Dsv4Slot
  import opened CkptPolicy
  import opened Dsv4Ckpt
  import opened Dsv4Decode
  import opened Dsv4Draft

  // ---------------------------------------------------------------------------------------------
  // generate
  // ---------------------------------------------------------------------------------------------

  /** The locals of `generate` that later tokens depend on. */
  datatype Locals = Locals(rng: nat, accepted: seq<string>, allow: Option<seq<bool>>, decoded: string)

  function DecOf(s: Slot, c: Locals): Dec
    reads s
  {
    Dec(s.State(), s.history, c.rng, c.accepted, c.allow, c.decoded, s.tokenLps)
  }

  function SeedOf(gp: GenParams): nat {
    if gp.seed == 0 then 1 else gp.seed
  }

  /** What a request starts decoding from, once its prompt is cached. */
  function StartDec(net: Net, gp: GenParams, prompt: seq<int>): Dec {
    Remask(gp, Dec(Cold(net, prompt).s, prompt, SeedOf(gp), [], None, "", []))
  }

  method SampleOnce(net: Net, gp: GenParams, s: Slot, c0: Locals) returns (token: int, c: Locals)
    modifies s`tokenLps
    ensures token == Sample(net, gp, old(DecOf(s, c0))).token
    ensures DecOf(s, c) == AfterSample(net, gp, old(DecOf(s, c0)))
  {
    var r := gp.sample(net.pool(s.streams), s.history, c0.rng, c0.allow);
    if gp.logprobs {
      s.tokenLps := s.tokenLps + [r.logprob];
    }
    return r.token, c0.(rng := r.rng);
  }

  /** byText says that a stop string and not a stop id ended the request. */
  method EmitOne(gp: GenParams, s: Slot, c0: Locals, token: int) returns (stop: bool, byText: bool, c: Locals)
    modifies s`history
    ensures var d := Accept(gp, old(DecOf(s, c0)), token);
            stop == Stops(gp, d, token) && DecOf(s, c) == Decoded(gp, d, token)
    ensures byText == (stop && !gp.isStop(token)) && s.history == old(s.history) + [token]
  {
    s.history := s.history + [token];
    c := c0;
    if GrammarOn(gp) {
      c := c.(accepted := c.accepted + [gp.text(token)]);
    }
    stop, byText := gp.isStop(token), false;
    if !stop && gp.hasText {
      c := c.(decoded := c.decoded + gp.text(token));
      if gp.stopHit(c.decoded) {
        stop, byText := true, true;
      }
    }
  }

  function Remasked(gp: GenParams, c: Locals): Locals {
    if GrammarOn(gp) then c.(allow := Some(gp.mask(c.accepted))) else c
  }

  /** Emits the tokens of a batch until one stops. */
  method EmitSome(gp: GenParams, s: Slot, c0: Locals, batch: seq<int>)
    returns (stop: bool, byText: bool, n: nat, c: Locals)
    requires batch != []
    modifies s`history
    ensures Emitted(stop, n, DecOf(s, c)) == EmitAll(gp, old(DecOf(s, c0)), batch)
    ensures 1 <= n <= |batch| && s.history == old(s.history) + batch[..n] && (!stop ==> n == |batch|)
    ensures byText == (stop && !gp.isStop(batch[n - 1]))
  {
    hide Accept, Decoded, Stops;
    n := 0;
    c := c0;
    stop, byText := false, false;
    ghost var all := EmitAll(gp, DecOf(s, c), batch);
    assert batch[0..] == batch;
    while n < |batch| && !stop
      invariant 0 <= n <= |batch| && s.history == old(s.history) + batch[..n] && (stop ==> n > 0)
      invariant all == if stop then Emitted(true, n, DecOf(s, c))
                       else Later(n, EmitAll(gp, DecOf(s, c), batch[n..]))
      invariant byText == (stop && !gp.isStop(batch[n - 1]))
      decreases |batch| - n, !stop
    {
      assert batch[n..][1..] == batch[n + 1..];
      stop, byText, c := EmitOne(gp, s, c, batch[n]);
      n := n + 1;
    }
  }

  /** n tokens were emitted before. */
  function Later(n: nat, e: Emitted): Emitted {
    e.(n := n + e.n)
  }

  /** One iteration of the generation loop; `batch` is what it emitted. */
  method Turn(net: Net, gp: GenParams, dr: Drafter, s: Slot, c0: Locals, budget: nat)
    returns (ok: bool, batch: seq<int>, stopped: bool, byText: bool, c: Locals)
    requires budget > 0 && s.Room(net, s.pos + budget) && s.lastH == net.pool(s.streams)
    modifies s
    ensures SameShape(s.kv, old(s.kv)) && s.have == old(s.have)
    ensures 1 <= |batch| <= budget && s.history == old(s.history) + batch
    ensures ok ==> s.lastH == net.pool(s.streams)
    ensures ok ==> if stopped then s.State() == old(s.State())
                   else Feed(net, old(s.State()), batch) == Fed(true, s.State())
    ensures var b := DraftIter(net, gp, dr, old(DecOf(s, c0)), budget);
            ok == b.ok && batch == b.batch && stopped == b.stopped && (ok ==> DecOf(s, c) == b.d)
    ensures byText == (stopped && !gp.isStop(batch[|batch| - 1]))
  {
    hide Feed, Dsv4Net.Step, Draft, EmitAll, Accept, Decoded, Stops, Sample;
    var draft := Propose(dr, s.history, s.lastH, budget);
    var lastH, prev0 := s.lastH, Last(s.history);
    ghost var history := s.history;
    var next;
    next, c := SampleOnce(net, gp, s, c0);
    ok := true;
    batch := [next];
    if draft != [] && next == draft[0] && |lastH| == dr.hidden {
      var a := 1;
      if dr.mode == Forward {
        DraftIsChain(dr, history, lastH, budget);
        a := VerifyTail(dr, lastH, prev0, draft, history, Shorter(dr.depth, budget));
      }
      a := if a > budget then budget else a;
      batch := draft[..a];
    }
    assert batch == TurnBatch(dr, history, lastH, next, budget);
    var n;
    stopped, byText, n, c := EmitSome(gp, s, c, batch);
    if stopped {
      batch := batch[..n];
    } else {
      assert batch[..n] == batch;
      ok := s.PrefillWindow(net, batch);
      if ok {
        c := Remasked(gp, c);
      }
    }
  }

  lemma DraftIsChain(dr: Drafter, history: seq<int>, lastH: Vec, budget: nat)
    ensures Draft(dr, history, lastH, budget) != [] && UsesHidden(dr, lastH) ==>
              Draft(dr, history, lastH, budget) == Chain(dr, history, true, lastH, Last(history), Shorter(dr.depth, budget))
  {
    hide Chain;
  }

  function PrependGen(done: seq<int>, r: GenOut): (g: GenOut)
    ensures done == [] ==> g == r
  {
    assert done == [] ==> done + r.tokens == r.tokens;
    GenOut(r.ok, done + r.tokens, r.stopped, r.d)
  }

  lemma DraftedStep(net: Net, gp: GenParams, dr: Drafter, done: seq<int>, d: Dec, n: int)
    requires n > 0
    ensures var b, all := DraftIter(net, gp, dr, d, n), PrependGen(done, Drafted(net, gp, dr, d, n));
            if b.ok && !b.stopped then all == PrependGen(done + b.batch, Drafted(net, gp, dr, b.d, n - |b.batch|))
            else all == GenOut(b.ok, done + b.batch, b.stopped, b.d)
  {
    hide DraftIter;
    var b := DraftIter(net, gp, dr, d, n);
    if b.ok && !b.stopped {
      var r := Drafted(net, gp, dr, b.d, n - |b.batch|);
      assert done + (b.batch + r.tokens) == done + b.batch + r.tokens;
    }
  }

  /** The cache rows belong to the history: the slot holds the cold state of history[..pos]. */
  predicate Consistent(net: Net, s: Slot)
    reads s
  {
    Holds(net, s, s.history, s.pos)
  }

  lemma FeedKeepsHolding(net: Net, ids: seq<int>, st: KvState, more: seq<int>)
    requires Cold(net, ids) == Fed(true, st) && Feed(net, st, more).ok
    ensures Cold(net, ids + more) == Feed(net, st, more)
    ensures Feed(net, st, more).s.pos == st.pos + |more|
  {
    FeedAppend(net, Empty(net), ids, more);
    FeedPos(net, st, more);
  }

  /** A turn keeps the rows those of the history; unless it stopped, every token of the history is fed. */
  method FaithfulTurn(net: Net, gp: GenParams, dr: Drafter, s: Slot, c0: Locals, budget: nat)
    returns (ok: bool, batch: seq<int>, stopped: bool, byText: bool, c: Locals)
    requires budget > 0 && s.Room(net, s.pos + budget) && s.lastH == net.pool(s.streams)
    requires Consistent(net, s) && s.pos == |s.history|
    modifies s
    ensures SameShape(s.kv, old(s.kv)) && s.have == old(s.have)
    ensures 1 <= |batch| <= budget && s.history == old(s.history) + batch
    ensures ok ==> s.lastH == net.pool(s.streams) && Consistent(net, s) &&
                   s.pos == if stopped then old(s.pos) else old(s.pos) + |batch|
    ensures var b := DraftIter(net, gp, dr, old(DecOf(s, c0)), budget);
            ok == b.ok && batch == b.batch && stopped == b.stopped && (ok ==> DecOf(s, c) == b.d)
    ensures byText == (stopped && !gp.isStop(batch[|batch| - 1]))
  {
    hide Feed, Cold, DraftIter;
    ghost var h0, st0, p0, kv0 := s.history, s.State(), s.pos, s.kv;
    assert h0[..p0] == h0;
    ok, batch, stopped, byText, c := Turn(net, gp, dr, s, c0, budget);
    SameRoom(kv0, s.kv, net.layers, p0 + budget);
    if ok {
      if stopped {
        assert s.history[..p0] == h0;
      } else {
        FeedKeepsHolding(net, h0, st0, batch);
        assert s.history[..s.pos] == h0 + batch;
      }
    }
  }

  /**
   The generation loop computes generation with drafting, which is plain generation except with forward
   drafts of two or more tokens for requests of two or more. In every mode it ends, emits at most maxNew tokens, and leaves cache
   rows that belong to the history.
   */
  method Loop(net: Net, gp: GenParams, dr: Drafter, s: Slot, c0: Locals)
    returns (ok: bool, tokens: seq<int>, stopped: bool, byText: bool, c: Locals)
    requires s.Room(net, s.pos + Budget(gp)) && Cold(net, s.history) == Fed(true, s.State()) && s.pos == |s.history|
    requires s.lastH == net.pool(s.streams)
    modifies s
    ensures SameShape(s.kv, old(s.kv)) && s.have == old(s.have)
    ensures |tokens| <= Budget(gp) && s.history == old(s.history) + tokens
    ensures ok ==> Consistent(net, s)
    ensures var want := Drafted(net, gp, dr, old(DecOf(s, c0)), gp.maxNew);
            ok == want.ok && tokens == want.tokens && (ok ==> stopped == want.stopped && DecOf(s, c) == want.d)
    ensures DraftsPlainly(dr, gp.maxNew) ==>
              Drafted(net, gp, dr, old(DecOf(s, c0)), gp.maxNew) == Plain(net, gp, old(DecOf(s, c0)), gp.maxNew)
    ensures ok ==> byText == (stopped && tokens != [] && !gp.isStop(tokens[|tokens| - 1]))
  {
    hide Feed, Cold, DraftIter, Drafted, Plain, Consistent, SameShape, PrependGen, Slot.State, DecOf;
    ghost var goal, kv0, room := Drafted(net, gp, dr, DecOf(s, c0), gp.maxNew), s.kv, s.pos + Budget(gp);
    if DraftsPlainly(dr, gp.maxNew) {
      DraftedIsPlain(net, gp, dr, DecOf(s, c0), gp.maxNew);
    }
    ok, tokens, stopped, byText, c := true, [], false, false, c0;
    WholeIsConsistent(net, s);
    ShapeOfItself(s.kv);
    while |tokens| < gp.maxNew && !stopped
      invariant SameShape(s.kv, kv0) && |tokens| <= Budget(gp) && s.history == old(s.history) + tokens && ok
      invariant s.have == old(s.have)
      invariant Consistent(net, s) && s.lastH == net.pool(s.streams)
      invariant !stopped ==> s.pos == |s.history| && s.pos + Budget(gp) - |tokens| == room
      invariant goal == if stopped then GenOut(true, tokens, true, DecOf(s, c))
                        else PrependGen(tokens, Drafted(net, gp, dr, DecOf(s, c), gp.maxNew - |tokens|))
      invariant byText == (stopped && tokens != [] && !gp.isStop(tokens[|tokens| - 1]))
      decreases gp.maxNew - |tokens|, !stopped
    {
      DraftedStep(net, gp, dr, tokens, DecOf(s, c), gp.maxNew - |tokens|);
      SameRoom(kv0, s.kv, net.layers, room);
      ghost var kv1 := s.kv;
      var batch;
      ok, batch, stopped, byText, c := FaithfulTurn(net, gp, dr, s, c, gp.maxNew - |tokens|);
      ShapeThrough(s.kv, kv1, kv0);
      tokens := tokens + batch;
      if !ok {
        return;
      }
    }
    DraftedNothing(net, gp, dr, tokens, DecOf(s, c), gp.maxNew - |tokens|);
  }

  lemma WholeIsConsistent(net: Net, s: Slot)
    requires Cold(net, s.history) == Fed(true, s.State()) && s.pos == |s.history| && s.Room(net, s.pos)
    ensures Consistent(net, s)
  {
    assert s.history[..s.pos] == s.history;
  }

  lemma ShapeThrough(a: seq<seq<Row>>, b: seq<seq<Row>>, c: seq<seq<Row>>)
    requires SameShape(a, b) && SameShape(b, c)
    ensures SameShape(a, c)
  {}

  function Budget(gp: GenParams): nat {
    if gp.maxNew > 0 then gp.maxNew else 0
  }

  lemma DraftedNothing(net: Net, gp: GenParams, dr: Drafter, done: seq<int>, d: Dec, n: int)
    ensures n <= 0 ==> PrependGen(done, Drafted(net, gp, dr, d, n)) == GenOut(true, done, false, d)
  {
    assert done + [] == done;
  }

  // ---------------------------------------------------------------------------------------------
  // Entry points
  // ---------------------------------------------------------------------------------------------

  function Capacity(gp: GenParams, promptLen: nat, maxSeq: int): int {
    var t := if maxSeq > promptLen + gp.maxNew + 256 then maxSeq else promptLen + gp.maxNew + 256;
    if t <= 0 then 4096 else t
  }

  /**
   What a slot kept between requests has to promise: when it counts as holding something, and its position
   lies inside its history, the rows belong to the history.
   */
  predicate Reusable(net: Net, s: Slot)
    reads s
  {
    |s.kv| <= net.layers && (s.have && 0 < s.pos <= |s.history| ==> Consistent(net, s))
  }

  /** How many tokens of the prompt a request takes from the slot instead of prefilling them. */
  function ReuseLength(s: Slot, prompt: seq<int>, prefixReuse: int): nat
    reads s
  {
    var shared := if s.have then CommonPrefix(s.history, prompt) else 0;
    var want := Min(if prefixReuse > 0 then prefixReuse else 0, shared);
    if s.have && 0 < s.pos <= want && s.pos <= |prompt| then s.pos else 0
  }

  /** The slot's whole length, exactly when that much of its history begins the prompt and the request allows it. */
  lemma ReuseWhen(s: Slot, prompt: seq<int>, prefixReuse: int)
    ensures ReuseLength(s, prompt, prefixReuse) ==
            if s.have && 0 < s.pos <= prefixReuse && s.pos <= |prompt| && s.pos <= |s.history| &&
               prompt[..s.pos] == s.history[..s.pos] then s.pos else 0
  {
    var shared := CommonPrefix(s.history, prompt);
    if 0 < s.pos <= |prompt| && s.pos <= |s.history| {
      if s.pos <= shared {
        assert s.history[..s.pos] == s.history[..shared][..s.pos] == prompt[..shared][..s.pos] == prompt[..s.pos];
      } else {
        assert prompt[..s.pos][shared] != s.history[..s.pos][shared];
      }
    }
  }

  /** What is taken is the cold state of a part of the prompt. */
  predicate TakesRight(net: Net, s: Slot, prompt: seq<int>, prefixReuse: int)
    reads s
  {
    var n := ReuseLength(s, prompt, prefixReuse);
    n > 0 ==> Holds(net, s, prompt, n)
  }

  /** The promise is exactly what makes reuse right for every prompt. */
  lemma ReusableWhen(net: Net, s: Slot)
    requires |s.kv| <= net.layers
    ensures Reusable(net, s) <==> forall prompt, prefixReuse :: TakesRight(net, s, prompt, prefixReuse)
  {
    hide Cold;
    if Reusable(net, s) {
      forall prompt, prefixReuse
        ensures TakesRight(net, s, prompt, prefixReuse)
      {
        TakesItsOwn(net, s, prompt, prefixReuse);
      }
    } else {
      WholeShared(s.history);
      assert ReuseLength(s, s.history, s.pos) == s.pos;
      assert !TakesRight(net, s, s.history, s.pos);
    }
  }

  lemma TakesItsOwn(net: Net, s: Slot, prompt: seq<int>, prefixReuse: int)
    requires Reusable(net, s)
    ensures TakesRight(net, s, prompt, prefixReuse)
  {
    hide Cold;
    var n := ReuseLength(s, prompt, prefixReuse);
    if n > 0 {
      var shared := CommonPrefix(s.history, prompt);
      assert s.history[..n] == s.history[..shared][..n] == prompt[..shared][..n] == prompt[..n];
    }
  }

  lemma {:induction false} WholeShared(h: seq<int>)
    ensures CommonPrefix(h, h) == |h|
  {
    if h != [] {
      WholeShared(h[1..]);
    }
  }

  /** How much of the prompt the slot itself already holds. */
  method KvReuse(net: Net, s: Slot, prompt: seq<int>, prefixReuse: int, tMax: int) returns (reuse: nat)
    requires |s.kv| <= net.layers
    modifies s`kv
    ensures |s.kv| <= net.layers && reuse == old(ReuseLength(s, prompt, prefixReuse))
    ensures old(Reusable(net, s)) && reuse > 0 ==> Holds(net, s, prompt, reuse) && s.State() == old(s.State())
    ensures reuse == 0 ==> s.kv == old(s.kv)
  {
    hide Cold;
    if Reusable(net, s) {
      TakesItsOwn(net, s, prompt, prefixReuse);
    }
    var match_ := if s.have then CommonPrefix(s.history, prompt) else 0;
    var want := Min(if prefixReuse > 0 then prefixReuse else 0, match_);
    if s.have && s.pos > 0 && s.pos <= want && s.pos <= |prompt| {
      ghost var was := s.kv;
      s.EnsureT(net, tMax);
      if old(Reusable(net, s)) {
        ExtendsBelow(was, s.kv, net.layers, s.pos);
      }
      return s.pos;
    }
    return 0;
  }

  /**
   A whole request. Whatever the slot, the checkpoint cache and the drafter hold, the result is that
   of a cold prefill followed by generation with drafting, which is plain generation except with
   forward drafts of two or more tokens for requests of two or more. `byText` is true when a stop string
   ended the request. `reuse` is how much of the prompt was there before; a request that fails without any
   leaves a slot that the next one does not take for filled.
   */
  method Generate(e: Engine, net: Net, cfg: CkptConfig, s: Slot, useSlot: bool, prompt: seq<int>, gp: GenParams,
                  dr: Drafter, disk: seq<PrefixCkpt>, maxSeq: int)
    returns (st: Status, tokens: seq<int>, byText: bool, reuse: nat)
    requires ValidConfig(cfg) && Shaped(net, cfg.width) && AllSound(net, e.ckpts) && Reusable(net, s)
    requires forall i :: 0 <= i < |disk| && Insertable(disk[i]) ==> Sound(net, disk[i])
    requires |prompt| <= maxSeq || gp.maxNew >= -256
    modifies e, s
    ensures AllSound(net, e.ckpts)
    ensures (st == InvalidArgument <==> prompt == []) && (st == InvalidArgument || st == Ok || st == IoError)
    ensures prompt != [] ==>
              var want := Drafted(net, gp, dr, StartDec(net, gp, prompt), gp.maxNew);
              && (st == Ok <==> Cold(net, prompt).ok && want.ok)
              && (st == Ok ==> tokens == want.tokens &&
                               byText == (want.stopped && tokens != [] && !gp.isStop(tokens[|tokens| - 1])))
    ensures DraftsPlainly(dr, gp.maxNew) ==>
              Drafted(net, gp, dr, StartDec(net, gp, prompt), gp.maxNew) == Plain(net, gp, StartDec(net, gp, prompt), gp.maxNew)
    ensures st == Ok ==> |tokens| <= Budget(gp) && s.history == prompt + tokens && Consistent(net, s)
    ensures st == Ok && useSlot ==> s.have && !s.live && Reusable(net, s)
    ensures st == IoError && reuse == 0 ==> !s.have && Reusable(net, s)
    ensures prompt != [] ==>
              TakesLongest(cfg, old(e.Contents()), old(e.diskLoaded), disk, prompt,
                           if useSlot && gp.prefixReuse > 0 then old(ReuseLength(s, prompt, gp.prefixReuse)) else 0, reuse)
    ensures prompt != [] && !Cold(net, prompt).ok ==>
              FailedFrom(net, s, prompt, reuse, old(s.have), old(s.history),
                         if useSlot && gp.prefixReuse > 0 then old(ReuseLength(s, prompt, gp.prefixReuse)) else 0)
  {
    hide Cold, Plain, Drafted, Shaped, StartDec, Remask, PrefillStop, Slot.State, FailedFrom, SameShape, Sound;
    hide TakesLongest;
    if DraftsPlainly(dr, gp.maxNew) {
      DraftedIsPlain(net, gp, dr, StartDec(net, gp, prompt), gp.maxNew);
    }
    tokens, byText, reuse := [], false, 0;
    if prompt == [] {
      return InvalidArgument, tokens, byText, reuse;
    }
    var tMax := Capacity(gp, |prompt|, maxSeq);
    var ok;
    ok, reuse := Prepare(e, net, cfg, s, prompt, gp, useSlot && gp.prefixReuse > 0, tMax, disk);
    if !ok {
      return IoError, tokens, byText, reuse;
    }
    ghost var kv0 := s.kv;
    ok, tokens, byText := Produce(net, gp, dr, s, prompt);
    SameLayers(s.kv, kv0);
    if !ok {
      return IoError, tokens, byText, reuse;
    }
    if useSlot {
      s.history := prompt + tokens;
      s.have, s.live := true, false;
    }
    return Ok, tokens, byText, reuse;
  }

  /** A request starts from what its slot holds, or from the longest stored prefix when that is longer. */
  predicate TakesLongest(cfg: CkptConfig, c: Cache, loaded: bool, disk: seq<PrefixCkpt>, prompt: seq<int>, own: nat, reuse: nat)
    requires cfg.slots > 0
  {
    if cfg.enabled then UsesLongest(Loaded(c, loaded, cfg, disk).entries, prompt, cfg.minLen, own, reuse) else reuse == own
  }

  /** Brings the slot to the cold state of the prompt, from what it holds itself when that is asked for. */
  method Prepare(e: Engine, net: Net, cfg: CkptConfig, s: Slot, prompt: seq<int>, gp: GenParams, fromSlot: bool, tMax: int,
                 disk: seq<PrefixCkpt>) returns (ok: bool, reuse: nat)
    requires ValidConfig(cfg) && Shaped(net, cfg.width) && AllSound(net, e.ckpts) && Reusable(net, s)
    requires forall i :: 0 <= i < |disk| && Insertable(disk[i]) ==> Sound(net, disk[i])
    requires prompt != [] && |prompt| <= tMax
    modifies e, s
    ensures AllSound(net, e.ckpts) && ok == Cold(net, prompt).ok
    ensures ok ==> Cold(net, prompt) == Fed(true, s.State()) && s.lastH == net.pool(s.streams) && s.Room(net, AtLeastOne(tMax))
    ensures |s.kv| == net.layers && (reuse == 0 ==> !s.have)
    ensures FailedFrom(net, s, prompt, reuse, old(s.have), old(s.history),
                       if fromSlot then old(ReuseLength(s, prompt, gp.prefixReuse)) else 0)
    ensures TakesLongest(cfg, old(e.Contents()), old(e.diskLoaded), disk, prompt,
                         if fromSlot then old(ReuseLength(s, prompt, gp.prefixReuse)) else 0, reuse)
    ensures !ok && !cfg.enabled && reuse > 0 ==>
              Stop(s.pos, s.streams) == PrefillStop(net, old(s.State()), prompt[reuse..], cfg.chunk)
  {
    hide Cold, Shaped, PrefillStop, Below, Sound, UsesLongest, Loaded, AfterPrefill;
    reuse := 0;
    if fromSlot {
      reuse := KvReuse(net, s, prompt, gp.prefixReuse, tMax);
    }
    ok, reuse := e.RunPrefill(net, cfg, s, prompt, gp, reuse, tMax, disk);
  }

  /** Generation from a cached prompt. */
  method Produce(net: Net, gp: GenParams, dr: Drafter, s: Slot, prompt: seq<int>)
    returns (ok: bool, tokens: seq<int>, byText: bool)
    requires Cold(net, prompt) == Fed(true, s.State()) && s.Room(net, |prompt| + Budget(gp)) && s.lastH == net.pool(s.streams)
    modifies s
    ensures SameShape(s.kv, old(s.kv)) && s.have == old(s.have)
    ensures var want := Drafted(net, gp, dr, StartDec(net, gp, prompt), gp.maxNew);
            && ok == want.ok && tokens == want.tokens
            && (ok ==> byText == (want.stopped && tokens != [] && !gp.isStop(tokens[|tokens| - 1])))
    ensures |tokens| <= Budget(gp) && (ok ==> s.history == prompt + tokens && Consistent(net, s))
  {
    hide Cold, Drafted, StartDec, Consistent, SameShape;
    ColdLength(net, prompt);
    var c := StartRequest(net, gp, s, prompt);
    var stopped;
    ok, tokens, stopped, byText, c := Loop(net, gp, dr, s, c);
  }

  /** The request's locals and history once the prompt is cached. */
  method StartRequest(net: Net, gp: GenParams, s: Slot, prompt: seq<int>) returns (c: Locals)
    requires Cold(net, prompt) == Fed(true, s.State())
    modifies s`history, s`tokenLps
    ensures DecOf(s, c) == StartDec(net, gp, prompt) && s.history == prompt && s.pos == |prompt|
  {
    ColdLength(net, prompt);
    hide Cold;
    c := Remasked(gp, Locals(SeedOf(gp), [], None, ""));
    s.history := prompt;
    s.tokenLps := [];
  }

  lemma ColdLength(net: Net, prompt: seq<int>)
    ensures Cold(net, prompt).s.pos == |prompt|
  {
    FeedPos(net, Empty(net), prompt);
  }

  /** Everything a live slot's later tokens depend on. */
  function ValueOf(s: Slot): SlotVal
    reads s
  {
    SlotVal(s.gp, SlotDec(s), s.emitted)
  }

  function SlotDec(s: Slot): Dec
    reads s
  {
    Dec(s.State(), s.history, s.rng, s.accepted, s.allow, s.decoded, s.tokenLps)
  }

  /** The slot has room for every step its request can still take. */
  predicate Serving(net: Net, s: Slot)
    reads s
  {
    s.live ==> s.Room(net, s.pos + (if s.gp.maxNew > s.emitted then s.gp.maxNew - s.emitted else 0))
  }

  /** Prefills a slot and leaves it ready to produce one token per call. */
  method BeginGenerate(e: Engine, net: Net, cfg: CkptConfig, s: Slot, ids: seq<int>, gp: GenParams,
                       disk: seq<PrefixCkpt>, maxSeq: int) returns (st: Status, reuse: nat)
    requires ValidConfig(cfg) && Shaped(net, cfg.width) && AllSound(net, e.ckpts) && Reusable(net, s)
    requires forall i :: 0 <= i < |disk| && Insertable(disk[i]) ==> Sound(net, disk[i])
    requires |ids| <= maxSeq || gp.maxNew >= -256
    modifies e, s
    ensures AllSound(net, e.ckpts)
    ensures (st == InvalidArgument <==> ids == []) && (st == InvalidArgument || st == Ok || st == IoError)
    ensures st == Ok <==> ids != [] && Cold(net, ids).ok
    ensures st == Ok ==> ValueOf(s) == SlotVal(gp, StartDec(net, gp, ids), 0) && s.live && Serving(net, s) && Fresh(net, s)
    ensures st == IoError && reuse == 0 ==> !s.have && Reusable(net, s)
    ensures st == IoError ==>
              FailedFrom(net, s, ids, reuse, old(s.have), old(s.history), old(ReuseLength(s, ids, gp.prefixReuse)))
    ensures ids != [] ==>
              TakesLongest(cfg, old(e.Contents()), old(e.diskLoaded), disk, ids, old(ReuseLength(s, ids, gp.prefixReuse)), reuse)
    ensures st == IoError && !cfg.enabled && reuse > 0 ==>
              Stop(s.pos, s.streams) == PrefillStop(net, old(s.State()), ids[reuse..], cfg.chunk)
  {
    hide Cold, Shaped, PrefillStop, Below, FailedFrom, Sound, UsesLongest, Loaded;
    reuse := 0;
    if ids == [] {
      return InvalidArgument, reuse;
    }
    var ok;
    ok, reuse := Prepare(e, net, cfg, s, ids, gp, true, Capacity(gp, |ids|, maxSeq), disk);
    if !ok {
      return IoError, reuse;
    }
    ColdLength(net, ids);
    Arm(s, ids, gp);
    assert ids[..|ids|] == ids;
    return Ok, reuse;
  }

  /**
   What a prefill that failed leaves: the slot counts as holding what it held before, or an entry's ids, and
   the rows of the reused part are still there, but its position has moved on into the failed window.
   */
  predicate FailedFrom(net: Net, s: Slot, ids: seq<int>, reuse: nat, have0: bool, history0: seq<int>, own: nat)
    reads s
  {
    && own <= reuse <= |ids| && Restored(reuse, own, have0, history0, ids, s.have, s.history)
    && |s.kv| == net.layers && s.pos >= reuse && Below(s.kv, reuse) == Cold(net, ids[..reuse]).s.rows
  }

  /** Resets the request fields of a slot whose prompt is cached. */
  method Arm(s: Slot, ids: seq<int>, gp: GenParams)
    modifies s`history, s`live, s`have, s`gp, s`rng, s`emitted, s`allow, s`decoded, s`tokenLps, s`accepted
    ensures s.gp == gp && s.emitted == 0 && s.live && s.have
    ensures SlotDec(s) == Remask(gp, Dec(old(s.State()), ids, SeedOf(gp), [], None, "", []))
  {
    hide Slot.State;
    ArmText(s, gp);
    ArmFlags(s, ids, gp);
  }

  method ArmText(s: Slot, gp: GenParams)
    modifies s`allow, s`decoded, s`tokenLps, s`accepted
    ensures SlotDec(s) == Remask(gp, old(SlotDec(s)).(accepted := [], allow := None, decoded := "", lps := []))
  {
    hide Slot.State;
    s.allow, s.decoded, s.tokenLps, s.accepted := if GrammarOn(gp) then Some(gp.mask([])) else None, "", [], [];
  }

  method ArmFlags(s: Slot, ids: seq<int>, gp: GenParams)
    modifies s`history, s`live, s`have, s`gp, s`rng, s`emitted
    ensures s.gp == gp && s.emitted == 0 && s.live && s.have
    ensures SlotDec(s) == old(SlotDec(s)).(history := ids, rng := SeedOf(gp))
  {
    hide Slot.State;
    s.history, s.live, s.have, s.gp, s.rng, s.emitted := ids, true, true, gp, SeedOf(gp), 0;
  }

  method SampleSlot(net: Net, s: Slot) returns (token: int)
    modifies s`tokenLps, s`rng
    ensures token == Sample(net, s.gp, old(SlotDec(s))).token && SlotDec(s) == AfterSample(net, s.gp, old(SlotDec(s)))
  {
    var r := s.gp.sample(net.pool(s.streams), s.history, s.rng, s.allow);
    s.rng := r.rng;
    if s.gp.logprobs {
      s.tokenLps := s.tokenLps + [r.logprob];
    }
    return r.token;
  }

  method AcceptToken(s: Slot, token: int)
    modifies s`history, s`accepted
    ensures SlotDec(s) == Accept(s.gp, old(SlotDec(s)), token) && s.history == old(s.history) + [token]
  {
    s.history := s.history + [token];
    if GrammarOn(s.gp) {
      s.accepted := s.accepted + [s.gp.text(token)];
    }
  }

  /** The sampling half of a call: everything but the forward pass and the new mask. */
  method ChooseToken(net: Net, s: Slot) returns (token: int, done: bool)
    requires !Exhausted(s.gp, s.emitted)
    modifies s`tokenLps, s`rng, s`emitted, s`history, s`accepted, s`decoded
    ensures var c := Choose(net, s.gp, old(SlotDec(s)), old(s.emitted));
            c.ok && token == c.token && done == c.done && SlotDec(s) == c.d && s.emitted == c.emitted
    ensures s.emitted == old(s.emitted) + 1 && s.history == old(s.history) + [token]
  {
    hide AfterSample, Accept, Sample;
    token := SampleSlot(net, s);
    AcceptToken(s, token);
    s.emitted := s.emitted + 1;
    done := s.gp.isStop(token) || s.emitted >= s.gp.maxNew;
    if !done && s.gp.hasText {
      s.decoded := s.decoded + s.gp.text(token);
      done := s.gp.stopHit(s.decoded);
    }
  }

  method NewMask(s: Slot)
    modifies s`allow
    ensures SlotDec(s) == Remask(s.gp, old(SlotDec(s)))
  {
    if GrammarOn(s.gp) {
      s.allow := Some(s.gp.mask(s.accepted));
    }
  }

  lemma SameRoom(a: seq<seq<Row>>, b: seq<seq<Row>>, layers: nat, n: nat)
    requires SameShape(b, a)
    ensures HasRoom(a, layers, n) ==> forall m: nat :: m <= n ==> HasRoom(b, layers, m)
  {}

  /** A call is the choice of a token, the forward pass unless the request is done, and a new mask. */
  lemma NextParts(net: Net, gp: GenParams, d: Dec, emitted: nat)
    ensures var c, n := Choose(net, gp, d, emitted), Next(net, gp, d, emitted);
            if Exhausted(gp, emitted) then n == NextOut(true, -1, true, d, emitted)
            else if c.done then n == c.(d := Remask(gp, c.d)) && c.d.kv == d.kv
            else
              var f := Step(net, c.d.kv, c.token);
              n == c.(ok := f.ok, d := Remask(gp, c.d.(kv := f.s))) && c.d.kv == d.kv && f.s.pos == d.kv.pos + 1
    ensures var c := Choose(net, gp, d, emitted);
            c.emitted <= emitted + 1 && (!Exhausted(gp, emitted) ==> c.emitted == emitted + 1)
    ensures Remask(gp, d).kv == d.kv
  {
    hide Sample;
  }

  /** One call, as far as the request goes. */
  method CallNext(net: Net, s: Slot) returns (st: Status, token: int, done: bool)
    requires Serving(net, s)
    modifies s
    ensures s.have == old(s.have) && SameShape(s.kv, old(s.kv))
    ensures !old(s.live) ==> st == InvalidArgument && ValueOf(s) == old(ValueOf(s))
    ensures old(s.live) ==>
              var v := old(ValueOf(s));
              var c := Next(net, v.gp, v.d, v.emitted);
              st == (if c.ok then Ok else IoError) && token == c.token && (c.ok ==> done == c.done) &&
              (c.ok ==> ValueOf(s) == SlotVal(v.gp, c.d, c.emitted) && s.live && Serving(net, s))
    ensures st == IoError ==>
              && s.history == old(s.history) + [token] && s.pos == old(s.pos) && Below(s.kv, s.pos) == old(s.State().rows)
              && s.streams == StopStreams(net, 0, old(s.State().rows), net.embed(token))
  {
    hide Dsv4Net.Step, StopStreams, Below, Sample, Slot.State, Next, Choose, Remask, SameShape;
    ShapeOfItself(s.kv);
    NextParts(net, s.gp, SlotDec(s), s.emitted);
    ghost var kv0, need := s.kv, s.pos + (if s.gp.maxNew > s.emitted then s.gp.maxNew - s.emitted else 0);
    token, done := -1, false;
    if !s.live {
      return InvalidArgument, token, done;
    }
    if s.gp.maxNew <= 0 || s.emitted >= s.gp.maxNew {
      return Ok, -1, true;
    }
    token, done := ChooseToken(net, s);
    if !done {
      var ok := s.Step(net, token);
      if !ok {
        return IoError, token, done;
      }
    }
    NewMask(s);
    SameRoom(kv0, s.kv, net.layers, need);
    return Ok, token, done;
  }

  /** The rows belong to the history, as a value. */
  predicate FaithfulDec(net: Net, d: Dec) {
    d.kv.pos <= |d.history| && Cold(net, d.history[..d.kv.pos]) == Fed(true, d.kv)
  }

  /**
   From a state whose whole history is fed, a call keeps the rows those of the history; unless the request
   is done, the whole history is fed again.
   */
  lemma NextFaithful(net: Net, gp: GenParams, d: Dec, emitted: nat)
    requires FaithfulDec(net, d) && d.kv.pos == |d.history|
    ensures var c := Next(net, gp, d, emitted);
            c.ok ==> FaithfulDec(net, c.d) && c.d.kv.pos == if c.done then |d.history| else |c.d.history|
  {
    hide Dsv4Net.Step, Sample, Cold;
    var c := Choose(net, gp, d, emitted);
    assert d.history[..d.kv.pos] == d.history;
    if !Exhausted(gp, emitted) {
      assert c.d.history == d.history + [c.token] && c.d.kv == d.kv;
      assert (d.history + [c.token])[..|d.history|] == d.history;
      if !c.done && Step(net, d.kv, c.token).ok {
        FeedOne(net, d.kv, c.token);
        FeedKeepsHolding(net, d.history, d.kv, [c.token]);
        assert (d.history + [c.token])[..|d.history| + 1] == d.history + [c.token];
      }
    }
  }

  /** How many tokens of the history are not fed yet. */
  function Unfed(d: Dec): int {
    |d.history| - d.kv.pos
  }

  /**
   A call from any state whose rows are those of the history. A call that reports the end leaves its token
   unfed; any other call feeds its own token in place of the first unfed one. The rows stay those of the
   history exactly when there was none, or the call reported the end, or both tokens lead to one state.
   */
  lemma FaithfulWhen(net: Net, gp: GenParams, d: Dec, emitted: nat)
    requires FaithfulDec(net, d) && Next(net, gp, d, emitted).ok
    ensures var c := Next(net, gp, d, emitted);
            && Unfed(c.d) == (if c.done && !Exhausted(gp, emitted) then Unfed(d) + 1 else Unfed(d))
            && (FaithfulDec(net, c.d) <==>
                  c.done || Unfed(d) == 0 || Step(net, d.kv, c.token) == Step(net, d.kv, d.history[d.kv.pos]))
  {
    hide Dsv4Net.Step, Sample, Cold, FaithfulDec;
    var c := Next(net, gp, d, emitted);
    FedBelow(net, d);
    NextUnfed(net, gp, d, emitted);
    if c.done {
      DoneFaithful(net, gp, d, emitted);
    } else if Unfed(d) == 0 {
      NextFaithful(net, gp, d, emitted);
    } else {
      UnfedToken(net, gp, d, emitted);
    }
  }

  lemma FedBelow(net: Net, d: Dec)
    requires FaithfulDec(net, d)
    ensures d.kv.pos <= |d.history|
  {}

  lemma NextUnfed(net: Net, gp: GenParams, d: Dec, emitted: nat)
    ensures var c := Next(net, gp, d, emitted);
            c.ok ==> Unfed(c.d) == if c.done && !Exhausted(gp, emitted) then Unfed(d) + 1 else Unfed(d)
    ensures Exhausted(gp, emitted) ==> Next(net, gp, d, emitted).done
  {
    hide Layers, Sample;
  }

  lemma DoneFaithful(net: Net, gp: GenParams, d: Dec, emitted: nat)
    requires FaithfulDec(net, d) && Next(net, gp, d, emitted).ok && Next(net, gp, d, emitted).done
    ensures FaithfulDec(net, Next(net, gp, d, emitted).d)
  {
    hide Dsv4Net.Step, Sample, Cold;
    var c := Next(net, gp, d, emitted);
    assert c.d.history[..d.kv.pos] == d.history[..d.kv.pos];
  }

  lemma UnfedToken(net: Net, gp: GenParams, d: Dec, emitted: nat)
    requires FaithfulDec(net, d) && Unfed(d) > 0 && !Exhausted(gp, emitted)
    requires Next(net, gp, d, emitted).ok && !Next(net, gp, d, emitted).done
    ensures var c := Next(net, gp, d, emitted);
            FaithfulDec(net, c.d) <==> Step(net, d.kv, c.token) == Step(net, d.kv, d.history[d.kv.pos])
  {
    hide Dsv4Net.Step, Sample, Feed;
    var c, u := Next(net, gp, d, emitted), d.history[d.kv.pos];
    NextParts(net, gp, d, emitted);
    assert c.d.history == d.history + [c.token];
    var fed := d.history[..d.kv.pos];
    assert c.d.kv == Step(net, d.kv, c.token).s && c.d.kv.pos == d.kv.pos + 1;
    assert c.d.history[..d.kv.pos + 1] == fed + [u];
    FeedOne(net, d.kv, u);
    FeedAppend(net, Empty(net), fed, [u]);
    ColdAppend(net, fed, [u]);
  }

  lemma ColdAppend(net: Net, a: seq<int>, b: seq<int>)
    ensures Cold(net, a + b) == FeedThen(net, Empty(net), a, b)
  {
    FeedAppend(net, Empty(net), a, b);
  }

  /** A slot whose rows belong to its history and whose whole history is fed. */
  predicate Fresh(net: Net, s: Slot)
    reads s
  {
    |s.kv| <= net.layers && Consistent(net, s) && s.have && s.pos == |s.history|
  }

  lemma FreshIs(net: Net, s: Slot)
    ensures Consistent(net, s) <==> s.Room(net, s.pos) && FaithfulDec(net, SlotDec(s))
  {}

  /**
   One token. A live slot that was fresh stays reusable, and stays fresh until the request is done. When the
   forward pass fails the slot keeps its rows, but has the streams at which the pass stopped: it stays
   reusable exactly when they are those of before.
   */
  method NextToken(net: Net, s: Slot) returns (st: Status, token: int, done: bool)
    requires Serving(net, s)
    modifies s
    ensures s.have == old(s.have) && |s.kv| == |old(s.kv)|
    ensures !old(s.live) ==> st == InvalidArgument && ValueOf(s) == old(ValueOf(s))
    ensures old(s.live) ==>
              var v := old(ValueOf(s));
              var c := Next(net, v.gp, v.d, v.emitted);
              st == (if c.ok then Ok else IoError) && token == c.token && (c.ok ==> done == c.done) &&
              (c.ok ==> ValueOf(s) == SlotVal(v.gp, c.d, c.emitted) && s.live && Serving(net, s))
    ensures old(Fresh(net, s)) && st == Ok ==>
              Reusable(net, s) && Consistent(net, s) && s.have && (!done ==> Fresh(net, s))
    ensures old(Fresh(net, s)) && st == IoError ==>
              && s.have && s.history == old(s.history) + [token] && s.pos == old(s.pos)
              && s.streams == StopStreams(net, 0, old(s.State().rows), net.embed(token))
              && (Reusable(net, s) <==> s.pos == 0 || s.streams == old(s.streams))
  {
    hide Next, Slot.State, FaithfulDec, Consistent, StopStreams, Below;
    FreshIs(net, s);
    SlotParts(s);
    ghost var v, kv0, pos0, tidy, history0, st0 := ValueOf(s), s.kv, s.pos, Fresh(net, s), s.history, s.State();
    FreshHolds(net, s);
    s.StateParts();
    if tidy && s.live {
      NextFaithful(net, v.gp, v.d, v.emitted);
    }
    st, token, done := CallNext(net, s);
    SameRoom(kv0, s.kv, net.layers, pos0);
    FreshIs(net, s);
    SlotParts(s);
    s.StateParts();
    if tidy && st == IoError {
      OtherStreams(net, s, history0, st0);
    }
  }

  lemma FreshHolds(net: Net, s: Slot)
    ensures Fresh(net, s) ==> Cold(net, s.history) == Fed(true, s.State()) && s.Room(net, s.pos)
  {
    hide Cold;
    if Fresh(net, s) {
      assert s.history[..s.pos] == s.history;
    }
  }

  /** The slot has the rows of the history fed so far, but perhaps other streams. */
  lemma OtherStreams(net: Net, s: Slot, fed: seq<int>, before: KvState)
    requires Cold(net, fed) == Fed(true, before) && s.Room(net, s.pos) && fed <= s.history && s.pos == |fed|
    requires s.State() == before.(streams := s.streams)
    ensures Consistent(net, s) <==> s.streams == before.streams
  {
    hide Cold;
    assert s.history[..s.pos] == fed;
  }

  lemma SlotParts(s: Slot)
    ensures SlotDec(s).history == s.history && SlotDec(s).kv.pos == s.pos
  {}

  // ---------------------------------------------------------------------------------------------
  // One call for several slots
  // ---------------------------------------------------------------------------------------------

  predicate Separate(slots: seq<Slot>) {
    forall i, j :: 0 <= i < j < |slots| ==> slots[i] != slots[j]
  }

  /** What the sampling pass leaves in a slot: the next value, but for the forward pass. */
  function Halfway(net: Net, v: SlotVal): SlotVal {
    var c := Choose(net, v.gp, v.d, v.emitted);
    SlotVal(v.gp, if Exhausted(v.gp, v.emitted) then v.d else Remask(v.gp, c.d), c.emitted)
  }

  function Final(net: Net, v: SlotVal): SlotVal {
    var c := Next(net, v.gp, v.d, v.emitted);
    SlotVal(v.gp, c.d, c.emitted)
  }

  /** The forward pass that takes Halfway to Final, for a request that is not done. */
  lemma HalfwayToFinal(net: Net, v: SlotVal)
    ensures var c, n := Choose(net, v.gp, v.d, v.emitted), Next(net, v.gp, v.d, v.emitted);
            n.token == c.token && n.done == c.done &&
            if c.done then n.ok && Final(net, v) == Halfway(net, v)
            else var f := Step(net, Halfway(net, v).d.kv, c.token);
                 n.ok == f.ok && Final(net, v) == Halfway(net, v).(d := Halfway(net, v).d.(kv := f.s))
  {
    hide Dsv4Net.Step, Sample, AfterSample;
  }

  /** The sampling pass on one slot. */
  method Sampling(net: Net, s: Slot) returns (token: int, done: bool)
    requires Serving(net, s)
    modifies s`tokenLps, s`rng, s`emitted, s`history, s`accepted, s`decoded, s`allow
    ensures var c := Choose(net, s.gp, old(SlotDec(s)), old(s.emitted));
            token == c.token && done == c.done
    ensures ValueOf(s) == Halfway(net, old(ValueOf(s)))
    ensures s.live && !done ==> s.Room(net, s.pos + 1)
  {
    hide Sample, AfterSample, Accept;
    if s.gp.maxNew <= 0 || s.emitted >= s.gp.maxNew {
      return -1, true;
    }
    token, done := ChooseToken(net, s);
    NewMask(s);
  }

  predicate AllServing(net: Net, ss: seq<Slot>)
    reads ss
  {
    forall k :: 0 <= k < |ss| ==> ss[k].live && Serving(net, ss[k])
  }

  method SampleAll(net: Net, ss: seq<Slot>) returns (tokens: seq<int>, done: seq<bool>)
    requires Separate(ss) && AllServing(net, ss)
    modifies ss
    ensures |tokens| == |done| == |ss|
    ensures forall k :: 0 <= k < |ss| ==>
              var c := Choose(net, old(ss[k].gp), old(SlotDec(ss[k])), old(ss[k].emitted));
              tokens[k] == c.token && done[k] == c.done && ValueOf(ss[k]) == Halfway(net, old(ValueOf(ss[k]))) &&
              (!done[k] ==> ss[k].Room(net, ss[k].pos + 1))
    ensures forall k :: 0 <= k < |ss| ==> ss[k].have == old(ss[k].have) && ss[k].kv == old(ss[k].kv)
  {
    hide Choose, Slot.State, Halfway;
    tokens, done := [], [];
    var i := 0;
    while i < |ss|
      invariant 0 <= i == |tokens| == |done| <= |ss|
      invariant forall k :: 0 <= k < |ss| ==> ss[k].have == old(ss[k].have) && ss[k].kv == old(ss[k].kv)
      invariant forall k :: i <= k < |ss| ==> ss[k].live && Serving(net, ss[k]) && ValueOf(ss[k]) == old(ValueOf(ss[k]))
      invariant forall k :: 0 <= k < i ==>
                  var c := Choose(net, old(ss[k].gp), old(SlotDec(ss[k])), old(ss[k].emitted));
                  tokens[k] == c.token && done[k] == c.done && ValueOf(ss[k]) == Halfway(net, old(ValueOf(ss[k]))) &&
                  (!done[k] ==> ss[k].Room(net, ss[k].pos + 1))
    {
      var t, d := Sampling(net, ss[i]);
      tokens, done := tokens + [t], done + [d];
      i := i + 1;
    }
  }

  lemma SameLength(a: seq<seq<Row>>, b: seq<seq<Row>>)
    requires SameShape(a, b)
    ensures |a| == |b|
  {}

  lemma ShapeOfItself(kv: seq<seq<Row>>)
    ensures SameShape(kv, kv)
  {}

  /** The forward pass on every slot that is not done, in order. */
  method StepAll(net: Net, ss: seq<Slot>, tokens: seq<int>, done: seq<bool>) returns (ok: bool)
    requires Separate(ss) && |tokens| == |done| == |ss|
    requires forall k :: 0 <= k < |ss| && !done[k] ==> ss[k].Room(net, ss[k].pos + 1)
    modifies ss
    ensures ok <==> forall k :: 0 <= k < |ss| && !done[k] ==> Step(net, old(ss[k].State()), tokens[k]).ok
    ensures ok ==> forall k :: 0 <= k < |ss| ==>
              ValueOf(ss[k]) == (if done[k] then old(ValueOf(ss[k])) else Stepped(net, old(ValueOf(ss[k])), tokens[k]))
    ensures forall k :: 0 <= k < |ss| ==> ss[k].have == old(ss[k].have) && SameShape(ss[k].kv, old(ss[k].kv))
  {
    hide Dsv4Net.Step, Slot.State, SameShape;
    var i := 0;
    forall k | 0 <= k < |ss|
      ensures SameShape(ss[k].kv, ss[k].kv)
    {
      ShapeOfItself(ss[k].kv);
    }
    while i < |ss|
      invariant 0 <= i <= |ss|
      invariant forall k :: 0 <= k < |ss| ==> ss[k].have == old(ss[k].have) && SameShape(ss[k].kv, old(ss[k].kv))
      invariant forall k :: 0 <= k < i && !done[k] ==> Step(net, old(ss[k].State()), tokens[k]).ok
      invariant forall k :: i <= k < |ss| ==> unchanged(ss[k])
      invariant forall k :: 0 <= k < i ==>
                  ValueOf(ss[k]) == (if done[k] then old(ValueOf(ss[k])) else Stepped(net, old(ValueOf(ss[k])), tokens[k]))
    {
      ok := StepUnless(net, ss[i], tokens[i], done[i]);
      if !ok {
        return;
      }
      i := i + 1;
    }
    ok := true;
  }

  /** The forward pass on one slot, unless its request is done. */
  method StepUnless(net: Net, s: Slot, token: int, done: bool) returns (ok: bool)
    requires !done ==> s.Room(net, s.pos + 1)
    modifies s`kv, s`streams, s`pos, s`lastH
    ensures ok <==> done || Step(net, old(s.State()), token).ok
    ensures ok ==> ValueOf(s) == if done then old(ValueOf(s)) else Stepped(net, old(ValueOf(s)), token)
    ensures SameShape(s.kv, old(s.kv))
  {
    hide Dsv4Net.Step, Slot.State;
    ok := true;
    if !done {
      ok := s.Step(net, token);
    }
  }

  function Stepped(net: Net, v: SlotVal, token: int): SlotVal {
    v.(d := v.d.(kv := Step(net, v.d.kv, token).s))
  }

  /** One call for several slots, as far as their requests go. */
  method CallAll(net: Net, ss: seq<Slot>) returns (st: Status, tokens: seq<int>, done: seq<bool>)
    requires Separate(ss) && forall k :: 0 <= k < |ss| ==> Serving(net, ss[k])
    modifies ss
    ensures forall k :: 0 <= k < |ss| ==> ss[k].have == old(ss[k].have) && SameShape(ss[k].kv, old(ss[k].kv))
    ensures st == InvalidArgument <==> exists k :: 0 <= k < |ss| && !old(ss[k].live)
    ensures st == Ok <==> (forall k :: 0 <= k < |ss| ==> old(ss[k].live)) &&
                          forall k :: 0 <= k < |ss| ==> NextOf(net, old(ValueOf(ss[k]))).ok
    ensures st == Ok ==> |tokens| == |done| == |ss| && forall k :: 0 <= k < |ss| ==>
              var c := NextOf(net, old(ValueOf(ss[k])));
              tokens[k] == c.token && done[k] == c.done && ValueOf(ss[k]) == Final(net, old(ValueOf(ss[k])))
  {
    hide Slot.State, Choose, Halfway, Next, Dsv4Net.Step;
    tokens, done := [], [];
    var i := 0;
    while i < |ss|
      invariant 0 <= i <= |ss| && forall k :: 0 <= k < i ==> ss[k].live
    {
      if !ss[i].live {
        return InvalidArgument, tokens, done;
      }
      i := i + 1;
    }
    tokens, done := SampleAll(net, ss);
    forall k | 0 <= k < |ss|
      ensures var v := old(ValueOf(ss[k]));
              (done[k] ==> NextOf(net, v).ok && Final(net, v) == Halfway(net, v)) &&
              (!done[k] ==> NextOf(net, v).ok == Step(net, Halfway(net, v).d.kv, tokens[k]).ok &&
                            Final(net, v) == Stepped(net, Halfway(net, v), tokens[k]))
      ensures tokens[k] == NextOf(net, old(ValueOf(ss[k]))).token && done[k] == NextOf(net, old(ValueOf(ss[k]))).done
    {
      HalfwayToFinal(net, old(ValueOf(ss[k])));
    }
    var ok := StepAll(net, ss, tokens, done);
    return if ok then Ok else IoError, tokens, done;
  }

  /**
   One call for several live slots: each gets exactly what its own next_token call would give, and a slot
   that was fresh stays reusable, and fresh until its request is done.
   */
  method NextTokens(net: Net, ss: seq<Slot>) returns (st: Status, tokens: seq<int>, done: seq<bool>)
    requires Separate(ss) && forall k :: 0 <= k < |ss| ==> Serving(net, ss[k])
    modifies ss
    ensures forall k :: 0 <= k < |ss| ==> ss[k].have == old(ss[k].have) && |ss[k].kv| == |old(ss[k].kv)|
    ensures st == InvalidArgument <==> exists k :: 0 <= k < |ss| && !old(ss[k].live)
    ensures st == Ok <==> (forall k :: 0 <= k < |ss| ==> old(ss[k].live)) &&
                          forall k :: 0 <= k < |ss| ==> NextOf(net, old(ValueOf(ss[k]))).ok
    ensures st == Ok ==> |tokens| == |done| == |ss| && forall k :: 0 <= k < |ss| ==>
              var c := NextOf(net, old(ValueOf(ss[k])));
              tokens[k] == c.token && done[k] == c.done && ValueOf(ss[k]) == Final(net, old(ValueOf(ss[k])))
    ensures st == Ok ==> forall k :: 0 <= k < |ss| && old(Fresh(net, ss[k])) ==>
              Reusable(net, ss[k]) && ss[k].have && (!done[k] ==> Fresh(net, ss[k]))
  {
    hide Slot.State, Next, FaithfulDec, Consistent, SameShape;
    forall k | 0 <= k < |ss|
      ensures Fresh(net, ss[k]) ==> FreshValue(net, ValueOf(ss[k])) && ss[k].Room(net, ss[k].pos) && ss[k].have
    {
      FreshIs(net, ss[k]);
      SlotParts(ss[k]);
    }
    st, tokens, done := CallAll(net, ss);
    forall k | 0 <= k < |ss|
      ensures |ss[k].kv| == |old(ss[k].kv)|
    {
      SameLength(ss[k].kv, old(ss[k].kv));
    }
    if st == Ok {
      forall k | 0 <= k < |ss| && old(Fresh(net, ss[k]))
        ensures Reusable(net, ss[k]) && ss[k].have && (!done[k] ==> Fresh(net, ss[k]))
      {
        ghost var v := old(ValueOf(ss[k]));
        NextFaithful(net, v.gp, v.d, v.emitted);
        NextPos(net, v);
        SameRoom(old(ss[k].kv), ss[k].kv, net.layers, old(ss[k].pos) + Remaining(v));
        FreshIs(net, ss[k]);
        SlotParts(ss[k]);
      }
    }
  }

  /** How many tokens a request may still get. */
  function Remaining(v: SlotVal): nat {
    if v.gp.maxNew > v.emitted then v.gp.maxNew - v.emitted else 0
  }

  lemma NextPos(net: Net, v: SlotVal)
    ensures NextOf(net, v).ok ==> NextOf(net, v).d.kv.pos <= v.d.kv.pos + Remaining(v)
  {
    hide Sample;
  }

  /** The value of a fresh slot. */
  predicate FreshValue(net: Net, v: SlotVal) {
    FaithfulDec(net, v.d) && v.d.kv.pos == |v.d.history|
  }

  function NextOf(net: Net, v: SlotVal): NextOut {
    Next(net, v.gp, v.d, v.emitted)
  }

  // ---------------------------------------------------------------------------------------------
  // A request served call by call
  // ---------------------------------------------------------------------------------------------

  function PrependDrain(done: seq<int>, r: DrainOut): (q: DrainOut)
    ensures done == [] ==> q == r
  {
    assert done == [] ==> done + r.tokens == r.tokens;
    DrainOut(r.ok, done + r.tokens, r.d)
  }

  lemma DrainStep(net: Net, gp: GenParams, done: seq<int>, d: Dec, emitted: nat)
    ensures var c, all := Next(net, gp, d, emitted), PrependDrain(done, Drain(net, gp, d, emitted));
            if Exhausted(gp, emitted) then all == DrainOut(true, done, d) && c == NextOut(true, -1, true, d, emitted)
            else if c.ok && !c.done then all == PrependDrain(done + [c.token], Drain(net, gp, c.d, c.emitted))
            else all == DrainOut(c.ok, done + [c.token], c.d)
  {
    hide Sample, AfterSample, Dsv4Net.Step;
    assert done + [] == done;
    if !Exhausted(gp, emitted) {
      var c := Next(net, gp, d, emitted);
      if c.ok && !c.done {
        var later := Drain(net, gp, c.d, c.emitted).tokens;
        assert done + ([c.token] + later) == done + [c.token] + later;
      }
    }
  }

  /**
   A request served by begin_generate and next_token calls until one reports the end. It gives the tokens
   of plain generation and succeeds exactly when generation does or fails only in its forward pass of the
   last token; the slot can be reused by the next request.
   */
  method GenerateByCalls(e: Engine, net: Net, cfg: CkptConfig, s: Slot, ids: seq<int>, gp: GenParams,
                         disk: seq<PrefixCkpt>, maxSeq: int) returns (st: Status, tokens: seq<int>)
    requires ValidConfig(cfg) && Shaped(net, cfg.width) && AllSound(net, e.ckpts) && Reusable(net, s)
    requires forall i :: 0 <= i < |disk| && Insertable(disk[i]) ==> Sound(net, disk[i])
    requires |ids| <= maxSeq || gp.maxNew >= -256
    modifies e, s
    ensures AllSound(net, e.ckpts)
    ensures st == InvalidArgument <==> ids == []
    ensures ids != [] ==>
              var d := StartDec(net, gp, ids);
              var p, q := Plain(net, gp, d, gp.maxNew), Drain(net, gp, d, 0);
              && (st == Ok <==> Cold(net, ids).ok && q.ok)
              && (Cold(net, ids).ok && p.ok ==> st == Ok)
              && (st == Ok ==> tokens == p.tokens && s.history == ids + tokens && Reusable(net, s) && s.have)
  {
    hide Cold, Shaped, Plain, Drain, StartDec, Fresh;
    tokens := [];
    var reuse;
    st, reuse := BeginGenerate(e, net, cfg, s, ids, gp, disk, maxSeq);
    if st != Ok {
      return;
    }
    ghost var d := StartDec(net, gp, ids);
    assert s.history == ids by { StartHistory(net, gp, ids); SlotParts(s); }
    DrainIsPlain(net, gp, d, 0);
    PlainTokens(net, gp, d, gp.maxNew);
    st, tokens := CallLoop(net, s);
    SlotParts(s);
  }

  lemma StartHistory(net: Net, gp: GenParams, ids: seq<int>)
    ensures StartDec(net, gp, ids).history == ids
  {
    hide Cold;
  }

  /** Calls next_token until it reports the end. */
  method CallLoop(net: Net, s: Slot) returns (st: Status, tokens: seq<int>)
    requires s.live && Serving(net, s) && Fresh(net, s)
    modifies s
    ensures var q := Drain(net, old(s.gp), old(SlotDec(s)), old(s.emitted));
            st == (if q.ok then Ok else IoError) &&
            (st == Ok ==> tokens == q.tokens && SlotDec(s) == q.d && Reusable(net, s) && s.have)
  {
    hide Drain, Next, Fresh, Serving, Reusable, Slot.State;
    tokens := [];
    st := Ok;
    ghost var q, gp := Drain(net, s.gp, SlotDec(s), s.emitted), s.gp;
    FreshReusable(net, s);
    var done := false;
    while !done
      invariant st == Ok && s.gp == gp && s.live && s.have && Serving(net, s) && Reusable(net, s)
      invariant !done ==> Fresh(net, s) && q == PrependDrain(tokens, Drain(net, gp, SlotDec(s), s.emitted))
      invariant done ==> q == DrainOut(true, tokens, SlotDec(s))
      decreases !done, if gp.maxNew > s.emitted then gp.maxNew - s.emitted else 0
    {
      var exhausted := s.gp.maxNew <= 0 || s.emitted >= s.gp.maxNew;
      DrainStep(net, gp, tokens, SlotDec(s), s.emitted);
      EmittedGrows(net, gp, SlotDec(s), s.emitted);
      var token;
      st, token, done := NextToken(net, s);
      if st != Ok {
        return;
      }
      if !exhausted {
        tokens := tokens + [token];
      }
    }
  }

  lemma FreshReusable(net: Net, s: Slot)
    requires Fresh(net, s)
    ensures Reusable(net, s) && s.have
  {}

  lemma EmittedGrows(net: Net, gp: GenParams, d: Dec, emitted: nat)
    ensures Next(net, gp, d, emitted).emitted == if Exhausted(gp, emitted) then emitted else emitted + 1
  {
    hide Sample, AfterSample, Dsv4Net.Step;
  }
}
