/**
 The continuous-batching loop over the paged cache: FIFO admission, release on stop, refill in the
 same pass. Every accepted prompt is proved to get the tokens it would get alone.
 */
module Batching {
  import opened Results
  import opened PagedKv

  const END_OF_TEXT := 128001
  const EOT_ID := 128009

  /** The kernels of the network, as the scheduler calls them. */
  class Llama {
    /** The rows a prompt projects to in a layer, and the token picked after it. */
    const promptK: (nat, seq<int>) -> seq<Vec>
    const promptV: (nat, seq<int>) -> seq<Vec>
    const firstToken: seq<int> -> int
    /** One decode step: embedding, K and V row at a position, the rest of a layer, the argmax. */
    const embed: int -> Vec
    const kRow: (nat, Vec, nat) -> Vec
    const vRow: (nat, Vec) -> Vec
    const attend: (nat, Vec, seq<Vec>, seq<Vec>) -> Vec
    const pick: Vec -> int

    constructor (promptK: (nat, seq<int>) -> seq<Vec>, promptV: (nat, seq<int>) -> seq<Vec>, firstToken: seq<int> -> int,
                 embed: int -> Vec, kRow: (nat, Vec, nat) -> Vec, vRow: (nat, Vec) -> Vec,
                 attend: (nat, Vec, seq<Vec>, seq<Vec>) -> Vec, pick: Vec -> int)
    {
      this.promptK, this.promptV, this.firstToken := promptK, promptV, firstToken;
      this.embed, this.kRow, this.vRow, this.attend, this.pick := embed, kRow, vRow, attend, pick;
    }
  }

  /** The projections give one row per prompt token. */
  ghost predicate RowPerToken(m: Llama) {
    forall l: nat, p :: |m.promptK(l, p)| == |p| && |m.promptV(l, p)| == |p|
  }

  /** The limits of a run, which do not change. */
  datatype Limits = Limits(d: Dims, blocks: nat, maxNew: int, maxPrompt: nat)

  predicate ValidLimits(c: Limits) {
    ValidDims(c.d) && c.d.batch > 0 && c.maxPrompt < c.d.maxSeq && Entries(c.d) <= c.blocks
  }

  // ---------------------------------------------------------------------------------------------
  // One prompt alone, on flat lists of rows
  // ---------------------------------------------------------------------------------------------

  /** What belongs to one prompt: its rows, its tokens, the last token and the number of rows. */
  datatype Seat = Seat(rows: Lists, generated: seq<int>, last: int, len: nat)

  /** The rows and the hidden state of one sequence inside a decode step. */
  datatype Depth = Depth(rows: Lists, hidden: Vec)

  predicate Layered(d: Dims, ls: Lists) {
    |ls.k| == |ls.v| == d.layers
  }

  /** All layers hold n rows. */
  predicate Rows(d: Dims, ls: Lists, n: nat) {
    Layered(d, ls) && forall l :: 0 <= l < d.layers ==> |ls.k[l]| == |ls.v[l]| == n
  }

  function OneRow(m: Llama, x: Depth, l: nat, pos: nat): Lists
    requires l < |x.rows.k| && l < |x.rows.v|
  {
    Append(x.rows, l, [m.kRow(l, x.hidden, pos)], [m.vRow(l, x.hidden)])
  }

  /** The first l layers of a decode step of one sequence. */
  function Deep(d: Dims, m: Llama, rows: Lists, last: int, pos: nat, l: nat): (r: Depth)
    requires Layered(d, rows) && l <= d.layers
    ensures Layered(d, r.rows)
  {
    if l == 0 then Depth(rows, m.embed(last))
    else
      var x := Deep(d, m, rows, last, pos, l - 1);
      var rows' := OneRow(m, x, l - 1, pos);
      Depth(rows', m.attend(l - 1, x.hidden, rows'.k[l - 1], rows'.v[l - 1]))
  }

  /** A whole decode step of one sequence. */
  function Decoded(d: Dims, m: Llama, seat: Seat): (r: Depth)
    requires Layered(d, seat.rows)
    ensures Layered(d, r.rows)
  {
    Deep(d, m, seat.rows, seat.last, seat.len, d.layers)
  }

  predicate Stops(c: Limits, seat: Seat, token: int) {
    token == END_OF_TEXT || token == EOT_ID || seat.len == c.d.maxSeq - 1
  }

  function Push(d: Dims, m: Llama, seat: Seat): (r: Seat)
    requires Layered(d, seat.rows)
    ensures Layered(d, r.rows) && |r.generated| == |seat.generated| + 1
  {
    var x := Decoded(d, m, seat);
    var token := m.pick(x.hidden);
    Seat(x.rows, seat.generated + [token], token, seat.len + 1)
  }

  /** The tokens of a sequence decoded alone, to its stop. */
  function Alone(c: Limits, m: Llama, seat: Seat): seq<int>
    requires Layered(c.d, seat.rows)
    decreases c.maxNew - |seat.generated|
  {
    if |seat.generated| >= c.maxNew then seat.generated
    else
      var token := m.pick(Decoded(c.d, m, seat).hidden);
      if Stops(c, seat, token) then seat.generated else Alone(c, m, Push(c.d, m, seat))
  }

  /** The rows of a freshly prefilled prompt, in the layers below `upto`. */
  function PromptRows(d: Dims, m: Llama, prompt: seq<int>, upto: nat): Lists {
    Lists(seq(d.layers, l requires 0 <= l < d.layers => if l < upto then m.promptK(l, prompt) else []),
          seq(d.layers, l requires 0 <= l < d.layers => if l < upto then m.promptV(l, prompt) else []))
  }

  function Start(d: Dims, m: Llama, prompt: seq<int>): Seat {
    Seat(PromptRows(d, m, prompt, d.layers), [m.firstToken(prompt)], m.firstToken(prompt), |prompt|)
  }

  /** The tokens the network gives for a prompt that is served alone. */
  function Answer(c: Limits, m: Llama, prompt: seq<int>): seq<int> {
    Alone(c, m, Start(c.d, m, prompt))
  }

  /** Every layer below l has one row more. */
  lemma {:induction false} DeepRows(d: Dims, m: Llama, rows: Lists, last: int, pos: nat, l: nat, n: nat)
    requires Rows(d, rows, n) && l <= d.layers
    ensures forall j :: 0 <= j < d.layers ==>
      |Deep(d, m, rows, last, pos, l).rows.k[j]| == (if j < l then n + 1 else n) &&
      |Deep(d, m, rows, last, pos, l).rows.v[j]| == (if j < l then n + 1 else n)
  {
    if l > 0 {
      DeepRows(d, m, rows, last, pos, l - 1, n);
      OneRowRows(d, m, Deep(d, m, rows, last, pos, l - 1), l - 1, pos);
    }
  }

  lemma OneRowRows(d: Dims, m: Llama, x: Depth, l: nat, pos: nat)
    requires Layered(d, x.rows) && l < d.layers
    ensures var r := OneRow(m, x, l, pos);
            Layered(d, r) && forall j :: 0 <= j < d.layers ==>
              |r.k[j]| == |x.rows.k[j]| + (if j == l then 1 else 0) &&
              |r.v[j]| == |x.rows.v[j]| + (if j == l then 1 else 0)
  {}

  lemma DecodedRows(d: Dims, m: Llama, seat: Seat)
    requires Rows(d, seat.rows, seat.len)
    ensures Rows(d, Decoded(d, m, seat).rows, seat.len + 1)
  {
    DeepRows(d, m, seat.rows, seat.last, seat.len, d.layers, seat.len);
  }

  /** A sequence alone gets at least its first token, and no more tokens than asked for (but the first). */
  lemma {:induction false} AloneLength(c: Limits, m: Llama, seat: Seat)
    requires Layered(c.d, seat.rows) && 1 <= |seat.generated| <= (if c.maxNew > 1 then c.maxNew else 1)
    ensures |seat.generated| <= |Alone(c, m, seat)| <= (if c.maxNew > 1 then c.maxNew else 1)
    ensures seat.generated <= Alone(c, m, seat)
    decreases c.maxNew - |seat.generated|
  {
    if |seat.generated| < c.maxNew && !Stops(c, seat, m.pick(Decoded(c.d, m, seat).hidden)) {
      AloneLength(c, m, Push(c.d, m, seat));
    }
  }

  // ---------------------------------------------------------------------------------------------
  // Admission
  // ---------------------------------------------------------------------------------------------

  /** One admitted prompt: its slot, and its tokens once it has finished. */
  datatype Ticket = Ticket(slot: nat, prompt: seq<int>, out: Option<seq<int>>)

  /** The prompts that are not too long, in order. */
  function Accepted(prompts: seq<seq<int>>, maxPrompt: nat): seq<seq<int>> {
    if prompts == [] then []
    else
      var rest := Accepted(prompts[..|prompts| - 1], maxPrompt);
      var p := prompts[|prompts| - 1];
      if |p| <= maxPrompt then rest + [p] else rest
  }

  predicate AllShort(prompts: seq<seq<int>>, maxPrompt: nat) {
    forall i :: 0 <= i < |prompts| ==> |prompts[i]| <= maxPrompt
  }

  predicate AllFree(slotFree: seq<bool>) {
    forall s :: 0 <= s < |slotFree| ==> slotFree[s]
  }

  predicate AllLive(slotFree: seq<bool>) {
    forall s :: 0 <= s < |slotFree| ==> !slotFree[s]
  }

  // ---------------------------------------------------------------------------------------------
  // With less than two tokens per prompt: which slots are free depends on the prompts' lengths alone
  // ---------------------------------------------------------------------------------------------

  /** Which slots are free, and what waits. */
  datatype Hall = Hall(free: seq<bool>, queue: seq<seq<int>>)

  /**
   A pass over one slot. A live one is released and takes the next prompt; a free one takes the next prompt
   and, when that is accepted, is released and takes another. A prompt that is too long leaves it free.
   */
  function Turned(free: bool, queue: seq<seq<int>>, maxPrompt: nat): (r: (bool, seq<seq<int>>))
    ensures queue == [] ==> r == (true, [])
    ensures queue != [] ==> |r.1| < |queue|
  {
    if queue == [] then (true, [])
    else if !free || |queue[0]| > maxPrompt then (|queue[0]| > maxPrompt, queue[1..])
    else Turned(false, queue[1..], maxPrompt)
  }

  /** A pass over the slots below s. */
  function PassTo(h: Hall, maxPrompt: nat, s: nat): (r: Hall)
    requires s <= |h.free|
    ensures |r.free| == |h.free| && |r.queue| <= |h.queue| && (s > 0 && h.queue != [] ==> |r.queue| < |h.queue|)
    ensures forall t :: s <= t < |h.free| ==> r.free[t] == h.free[t]
  {
    if s == 0 then h
    else
      var r := PassTo(h, maxPrompt, s - 1);
      var (free, queue) := Turned(r.free[s - 1], r.queue, maxPrompt);
      Hall(r.free[s - 1 := free], queue)
  }

  /** The first admission over the slots below s: one prompt for each. */
  function FillTo(prompts: seq<seq<int>>, batch: nat, maxPrompt: nat, s: nat): (r: Hall)
    requires s <= batch
    ensures |r.free| == batch && |r.queue| == (if |prompts| > s then |prompts| - s else 0)
    ensures forall t :: s <= t < batch ==> r.free[t]
  {
    if s == 0 then Hall(seq(batch, t => true), prompts)
    else
      var r := FillTo(prompts, batch, maxPrompt, s - 1);
      if r.queue == [] then r else Hall(r.free[s - 1 := |r.queue[0]| > maxPrompt], r.queue[1..])
  }

  /** Passes until no prompt waits: are all slots free then? */
  function EndsFree(h: Hall, maxPrompt: nat): bool
    requires |h.free| > 0
    decreases |h.queue|
  {
    var r := PassTo(h, maxPrompt, |h.free|);
    if r.queue == [] then AllFree(r.free) else EndsFree(r, maxPrompt)
  }

  lemma PassNone(h: Hall, maxPrompt: nat)
    ensures PassTo(h, maxPrompt, 0) == h
  {}

  lemma PassOne(h: Hall, maxPrompt: nat, s: nat)
    requires s < |h.free|
    ensures var r := PassTo(h, maxPrompt, s);
            var (free, queue) := Turned(r.free[s], r.queue, maxPrompt);
            PassTo(h, maxPrompt, s + 1) == Hall(r.free[s := free], queue)
  {}

  // ---------------------------------------------------------------------------------------------
  // What a pass over the slots does to those below s
  // ---------------------------------------------------------------------------------------------

  /** The slot is free, or still serves what it served. */
  predicate Same(t: nat, free0: seq<bool>, gen0: seq<seq<int>>, free: seq<bool>, gen: seq<seq<int>>)
    requires t < |free0| == |gen0| == |free| == |gen|
  {
    free[t] || (!free0[t] && gen[t] == gen0[t])
  }

  /** After the slots below s: those to decode are listed, the others are as before or have one new token. */
  predicate Admitted(maxNew: int, s: nat, free0: seq<bool>, gen0: seq<seq<int>>, free: seq<bool>, gen: seq<seq<int>>,
                     active: seq<nat>, sameQueue: bool)
  {
    && s <= |free0| == |gen0| == |free| == |gen|
    && (forall t :: 0 <= t < s ==> (t in active <==> !free[t] && |gen[t]| < maxNew))
    && (forall t :: s <= t < |free| ==> free[t] == free0[t] && gen[t] == gen0[t])
    && (forall t :: 0 <= t < s ==> Same(t, free0, gen0, free, gen) || (!sameQueue && |gen[t]| == 1))
  }

  lemma NobodyAdmitted(maxNew: int, free: seq<bool>, gen: seq<seq<int>>)
    requires |free| == |gen|
    ensures Admitted(maxNew, 0, free, gen, free, gen, [], true) && Increasing([], 0)
  {}

  /** One more slot. */
  lemma AdmittedOne(maxNew: int, s: nat, batch: nat, free0: seq<bool>, gen0: seq<seq<int>>,
                    free: seq<bool>, gen: seq<seq<int>>, active: seq<nat>, sameQueue: bool,
                    free': seq<bool>, gen': seq<seq<int>>, active': seq<nat>, sameQueue': bool)
    requires Admitted(maxNew, s, free0, gen0, free, gen, active, sameQueue) && s < |free| == batch && Increasing(active, s)
    requires |free'| == |gen'| == |free| && free' == free[s := free'[s]] && gen' == gen[s := gen'[s]]
    requires active' == (if !free'[s] && |gen'[s]| < maxNew then active + [s] else active)
    requires sameQueue' ==> sameQueue
    requires free'[s] || (!free[s] && gen'[s] == gen[s]) || (|gen'[s]| == 1 && !sameQueue')
    ensures Admitted(maxNew, s + 1, free0, gen0, free', gen', active', sameQueue') && Increasing(active', s + 1)
  {
    assert s !in active;
  }

  lemma AdmittedAll(maxNew: int, free0: seq<bool>, gen0: seq<seq<int>>, free: seq<bool>, gen: seq<seq<int>>,
                    active: seq<nat>, sameQueue: bool)
    requires Admitted(maxNew, |free|, free0, gen0, free, gen, active, sameQueue)
    ensures forall s :: 0 <= s < |free| ==> (s in active <==> !free[s] && |gen[s]| < maxNew)
    ensures sameQueue ==> forall s :: 0 <= s < |free| ==> free[s] || (!free0[s] && gen[s] == gen0[s])
    ensures forall s :: 0 <= s < |free| ==> free[s] || (!free0[s] && gen[s] == gen0[s]) || |gen[s]| == 1
  {
    forall s | 0 <= s < |free|
      ensures free[s] || (!free0[s] && gen[s] == gen0[s]) || (!sameQueue && |gen[s]| == 1)
    {
      assert Same(s, free0, gen0, free, gen) || (!sameQueue && |gen[s]| == 1);
    }
  }

  function Passed(h: Hall, maxPrompt: nat): Hall {
    PassTo(h, maxPrompt, |h.free|)
  }

  /** All slots are free at the end. */
  function Leaves(prompts: seq<seq<int>>, batch: nat, maxPrompt: nat): bool
    requires batch > 0
  {
    EndsFree(FillTo(prompts, batch, maxPrompt, batch), maxPrompt)
  }

  /** The admission changes nothing once nobody waits. */
  lemma {:induction false} FillStops(prompts: seq<seq<int>>, batch: nat, maxPrompt: nat, s: nat)
    requires s <= batch && (s == batch || FillTo(prompts, batch, maxPrompt, s).queue == [])
    ensures FillTo(prompts, batch, maxPrompt, batch) == FillTo(prompts, batch, maxPrompt, s)
    decreases batch - s
  {
    if s < batch {
      FillStops(prompts, batch, maxPrompt, s + 1);
    }
  }

  lemma {:induction false} NobodyWaits(h: Hall, maxPrompt: nat, s: nat)
    requires s <= |h.free| && h.queue == []
    ensures var r := PassTo(h, maxPrompt, s); r.queue == [] && forall t :: 0 <= t < s ==> r.free[t]
  {
    if s > 0 {
      NobodyWaits(h, maxPrompt, s - 1);
    }
  }

  /** A queue that is no longer than the batch leaves all slots free. */
  lemma FewLeave(prompts: seq<seq<int>>, batch: nat, maxPrompt: nat)
    requires batch > 0 && |prompts| <= batch
    ensures Leaves(prompts, batch, maxPrompt)
  {
    NobodyWaits(FillTo(prompts, batch, maxPrompt, batch), maxPrompt, batch);
  }

  /** Without prompts that are too long, a longer queue leaves a live slot. */
  lemma ManyStay(prompts: seq<seq<int>>, batch: nat, maxPrompt: nat)
    requires batch > 0 && AllShort(prompts, maxPrompt) && |prompts| > batch
    ensures !Leaves(prompts, batch, maxPrompt)
  {
    ShortFill(prompts, batch, maxPrompt, batch);
    ShortEnds(FillTo(prompts, batch, maxPrompt, batch), maxPrompt);
  }

  lemma LeaveWhen(prompts: seq<seq<int>>, batch: nat, maxPrompt: nat)
    requires batch > 0
    ensures |prompts| <= batch ==> Leaves(prompts, batch, maxPrompt)
    ensures AllShort(prompts, maxPrompt) ==> (Leaves(prompts, batch, maxPrompt) <==> |prompts| <= batch)
  {
    hide Leaves;
    if |prompts| <= batch {
      FewLeave(prompts, batch, maxPrompt);
    } else if AllShort(prompts, maxPrompt) {
      ManyStay(prompts, batch, maxPrompt);
    }
  }

  lemma {:induction false} ShortFill(prompts: seq<seq<int>>, batch: nat, maxPrompt: nat, s: nat)
    requires AllShort(prompts, maxPrompt) && s <= batch < |prompts|
    ensures var r := FillTo(prompts, batch, maxPrompt, s); r.queue == prompts[s..] && forall t :: 0 <= t < s ==> !r.free[t]
  {
    if s > 0 {
      ShortFill(prompts, batch, maxPrompt, s - 1);
    }
  }

  lemma {:induction false} ShortPass(h: Hall, maxPrompt: nat, s: nat)
    requires s <= |h.free| && AllShort(h.queue, maxPrompt) && h.queue != [] && AllLive(h.free)
    ensures var r, n := PassTo(h, maxPrompt, s), |h.queue|;
            r.queue == (if s < n then h.queue[s..] else []) && forall t :: 0 <= t < |h.free| ==> r.free[t] == (n <= t < s)
  {
    if s > 0 {
      ShortPass(h, maxPrompt, s - 1);
    }
  }

  lemma {:induction false} ShortEnds(h: Hall, maxPrompt: nat)
    requires |h.free| > 0 && AllShort(h.queue, maxPrompt) && h.queue != [] && AllLive(h.free)
    ensures !EndsFree(h, maxPrompt)
    decreases |h.queue|
  {
    ShortPass(h, maxPrompt, |h.free|);
    var r := PassTo(h, maxPrompt, |h.free|);
    if r.queue != [] {
      ShortEnds(r, maxPrompt);
    } else {
      assert !r.free[0];
    }
  }

  function Prompts(log: seq<Ticket>): seq<seq<int>> {
    seq(|log|, i requires 0 <= i < |log| => log[i].prompt)
  }

  lemma AcceptOne(taken: seq<seq<int>>, p: seq<int>, maxPrompt: nat)
    ensures Accepted(taken + [p], maxPrompt) ==
            (if |p| <= maxPrompt then Accepted(taken, maxPrompt) + [p] else Accepted(taken, maxPrompt))
  {
    assert (taken + [p])[..|taken|] == taken;
  }

  // ---------------------------------------------------------------------------------------------
  // The paged pool against the lists, layer by layer
  // ---------------------------------------------------------------------------------------------

  /** The prefill of every layer of one slot. */
  method FillLayers(c: Limits, m: Llama, pool0: Pool, s: nat, prompt: seq<int>, ghost views: seq<Lists>)
    returns (pool: Pool)
    requires ValidLimits(c) && RowPerToken(m) && s < c.d.batch && |prompt| <= c.maxPrompt
    requires Refines(c.d, c.blocks, pool0, views) && |views| == c.d.batch && views[s] == NoRows(c.d)
    ensures Refines(c.d, c.blocks, pool, views[s := PromptRows(c.d, m, prompt, c.d.layers)])
  {
    hide Refines, Entries, RowPerToken, MaxBlocks;
    pool := pool0;
    assert PromptRows(c.d, m, prompt, 0) == NoRows(c.d);
    assert views[s := PromptRows(c.d, m, prompt, 0)] == views;
    var l := 0;
    while l < c.d.layers
      invariant 0 <= l <= c.d.layers
      invariant Refines(c.d, c.blocks, pool, views[s := PromptRows(c.d, m, prompt, l)])
    {
      PromptLength(m, l, prompt);
      ghost var cur := views[s := PromptRows(c.d, m, prompt, l)];
      pool := PrefillLayer(c.d, c.blocks, pool, s, l, m.promptK(l, prompt), m.promptV(l, prompt), cur);
      NextPromptLayer(c.d, m, prompt, l);
      l := l + 1;
      assert cur[s := PromptRows(c.d, m, prompt, l)] == views[s := PromptRows(c.d, m, prompt, l)];
    }
  }

  lemma PromptLength(m: Llama, l: nat, prompt: seq<int>)
    requires RowPerToken(m)
    ensures |m.promptK(l, prompt)| == |m.promptV(l, prompt)| == |prompt|
  {}

  lemma NextPromptLayer(d: Dims, m: Llama, prompt: seq<int>, l: nat)
    requires l < d.layers
    ensures Append(PromptRows(d, m, prompt, l), l, m.promptK(l, prompt), m.promptV(l, prompt)) ==
            PromptRows(d, m, prompt, l + 1)
  {
    var a := Append(PromptRows(d, m, prompt, l), l, m.promptK(l, prompt), m.promptV(l, prompt));
    assert [] + m.promptK(l, prompt) == m.promptK(l, prompt) && [] + m.promptV(l, prompt) == m.promptV(l, prompt);
    assert a.k == PromptRows(d, m, prompt, l + 1).k;
    assert a.v == PromptRows(d, m, prompt, l + 1).v;
  }

  lemma PromptRowsShape(d: Dims, m: Llama, prompt: seq<int>)
    requires RowPerToken(m)
    ensures Rows(d, PromptRows(d, m, prompt, d.layers), |prompt|)
  {}

  predicate Increasing(active: seq<nat>, batch: nat) {
    (forall i :: 0 <= i < |active| ==> active[i] < batch) &&
    forall i, j :: 0 <= i < j < |active| ==> active[i] < active[j]
  }

  /** The sequences of a decode batch, before it. */
  predicate Batch(d: Dims, active: seq<nat>, views: seq<Lists>, last: seq<int>, len: seq<nat>) {
    && Increasing(active, d.batch) && |views| == |last| == |len| == d.batch
    && forall i :: 0 <= i < |active| ==> len[active[i]] < d.maxSeq && Rows(d, views[active[i]], len[active[i]])
  }

  /** Every sequence of the batch has done l layers of its own step, as if it were alone. */
  ghost predicate AtDepth(d: Dims, m: Llama, active: seq<nat>, was: seq<Lists>, last: seq<int>, len: seq<nat>,
                          l: nat, views: seq<Lists>, hidden: seq<Vec>)
    requires Batch(d, active, was, last, len) && l <= d.layers
  {
    && |views| == d.batch && |hidden| == |active|
    && (forall i :: 0 <= i < |active| ==>
          Deep(d, m, was[active[i]], last[active[i]], len[active[i]], l) == Depth(views[active[i]], hidden[i]))
    && forall s :: 0 <= s < d.batch && s !in active ==> views[s] == was[s]
  }

  /** What a batched decode step leaves: each sequence of the batch as after its own step, the others as they were. */
  function StepViews(d: Dims, m: Llama, active: seq<nat>, was: seq<Lists>, last: seq<int>, len: seq<nat>): seq<Lists>
    requires Batch(d, active, was, last, len)
  {
    seq(d.batch, s requires 0 <= s < d.batch =>
      if s in active then AloneStep(d, m, active, was, last, len, s).rows else was[s])
  }

  function StepHidden(d: Dims, m: Llama, active: seq<nat>, was: seq<Lists>, last: seq<int>, len: seq<nat>): seq<Vec>
    requires Batch(d, active, was, last, len)
  {
    seq(|active|, i requires 0 <= i < |active| => AloneStep(d, m, active, was, last, len, active[i]).hidden)
  }

  /** The step of one sequence of the batch alone. */
  function AloneStep(d: Dims, m: Llama, active: seq<nat>, was: seq<Lists>, last: seq<int>, len: seq<nat>, s: nat): Depth
    requires Batch(d, active, was, last, len) && s in active
  {
    InBatch(d, active, was, last, len, s);
    Deep(d, m, was[s], last[s], len[s], d.layers)
  }

  lemma InBatch(d: Dims, active: seq<nat>, views: seq<Lists>, last: seq<int>, len: seq<nat>, s: nat)
    requires Batch(d, active, views, last, len) && s in active
    ensures s < d.batch && Layered(d, views[s])
  {}

  lemma StepIsAlone(d: Dims, m: Llama, active: seq<nat>, was: seq<Lists>, last: seq<int>, len: seq<nat>,
                    views: seq<Lists>, hidden: seq<Vec>)
    requires Batch(d, active, was, last, len) && AtDepth(d, m, active, was, last, len, d.layers, views, hidden)
    ensures views == StepViews(d, m, active, was, last, len) && hidden == StepHidden(d, m, active, was, last, len)
  {
    hide Deep;
    forall s | 0 <= s < d.batch
      ensures views[s] == StepViews(d, m, active, was, last, len)[s]
    {
      if s in active {
        var i :| 0 <= i < |active| && active[i] == s;
        assert Deep(d, m, was[active[i]], last[active[i]], len[active[i]], d.layers) == Depth(views[active[i]], hidden[i]);
      }
    }
    forall i | 0 <= i < |active|
      ensures hidden[i] == StepHidden(d, m, active, was, last, len)[i]
    {
      assert active[i] in active;
      assert Deep(d, m, was[active[i]], last[active[i]], len[active[i]], d.layers) == Depth(views[active[i]], hidden[i]);
    }
  }

  /** The rows of the first `upto` sequences were appended in layer l. */
  ghost predicate Scattered(d: Dims, m: Llama, active: seq<nat>, views: seq<Lists>, hidden: seq<Vec>, len: seq<nat>,
                            l: nat, upto: nat, out: seq<Lists>)
    requires Increasing(active, d.batch) && |hidden| == |active| && |views| == |len| == d.batch && l < d.layers
    requires forall i :: 0 <= i < |active| ==> Layered(d, views[active[i]])
  {
    && |out| == d.batch
    && (forall i :: 0 <= i < |active| ==>
          Layered(d, views[active[i]]) &&
          out[active[i]] == if i < upto then OneRow(m, Depth(views[active[i]], hidden[i]), l, len[active[i]])
                            else views[active[i]])
    && forall s :: 0 <= s < d.batch && s !in active ==> out[s] == views[s]
  }

  /** All K and V rows of one layer go to their blocks before any attention is computed. */
  method Scatter(c: Limits, m: Llama, pool0: Pool, active: seq<nat>, hidden: seq<Vec>, len: seq<nat>, l: nat,
                 ghost views: seq<Lists>) returns (pool: Pool, ghost out: seq<Lists>)
    requires ValidLimits(c) && l < c.d.layers && Increasing(active, c.d.batch)
    requires |hidden| == |active| && |views| == |len| == c.d.batch && Refines(c.d, c.blocks, pool0, views)
    requires forall i :: 0 <= i < |active| ==> Layered(c.d, views[active[i]])
    requires forall i :: 0 <= i < |active| ==>
      |views[active[i]].k[l]| == len[active[i]] && len[active[i]] < c.d.maxSeq
    ensures Refines(c.d, c.blocks, pool, out)
    ensures Scattered(c.d, m, active, views, hidden, len, l, |active|, out)
  {
    hide Refines, Entries, MaxBlocks;
    pool, out := pool0, views;
    var i := 0;
    while i < |active|
      invariant 0 <= i <= |active| && Refines(c.d, c.blocks, pool, out)
      invariant Scattered(c.d, m, active, views, hidden, len, l, i, out)
    {
      var s := active[i];
      InBlock(c.d, len[s]);
      pool := AppendChunk(c.d, c.blocks, pool, s, l, len[s], [m.kRow(l, hidden[i], len[s])], [m.vRow(l, hidden[i])],
                          false, out);
      out := out[s := Append(out[s], l, [m.kRow(l, hidden[i], len[s])], [m.vRow(l, hidden[i])])];
      i := i + 1;
    }
  }

  lemma InBlock(d: Dims, n: nat)
    requires ValidDims(d)
    ensures n % d.blockSize + 1 <= d.blockSize
  {}

  /** The attention of every sequence, over the rows that the block table leads to. */
  method Attend(c: Limits, m: Llama, pool: Pool, active: seq<nat>, hidden0: seq<Vec>, len: seq<nat>, l: nat,
                ghost views: seq<Lists>) returns (hidden: seq<Vec>)
    requires ValidLimits(c) && l < c.d.layers && Increasing(active, c.d.batch)
    requires |hidden0| == |active| && |views| == |len| == c.d.batch && Refines(c.d, c.blocks, pool, views)
    requires forall i :: 0 <= i < |active| ==> Layered(c.d, views[active[i]])
    requires forall i :: 0 <= i < |active| ==> |views[active[i]].k[l]| == len[active[i]] + 1
    ensures |hidden| == |active|
    ensures forall i :: 0 <= i < |active| ==>
      hidden[i] == m.attend(l, hidden0[i], views[active[i]].k[l], views[active[i]].v[l])
  {
    hide Refines, Entries, MaxBlocks, Readable;
    hidden := [];
    var i := 0;
    while i < |active|
      invariant 0 <= i <= |active| && |hidden| == i
      invariant forall j :: 0 <= j < i ==>
        hidden[j] == m.attend(l, hidden0[j], views[active[j]].k[l], views[active[j]].v[l])
    {
      var s := active[i];
      GatherIsList(c.d, c.blocks, pool, views, s, l);
      hidden := hidden + [m.attend(l, hidden0[i], GatherK(c.d, pool, s, l, len[s] + 1), GatherV(c.d, pool, s, l, len[s] + 1))];
      i := i + 1;
    }
  }

  /** One layer of a batched step is one layer of each sequence's own step. */
  lemma DepthGrows(d: Dims, m: Llama, active: seq<nat>, was: seq<Lists>, last: seq<int>, len: seq<nat>, l: nat,
                   views: seq<Lists>, hidden: seq<Vec>, views': seq<Lists>, hidden': seq<Vec>)
    requires Batch(d, active, was, last, len) && l < d.layers && AtDepth(d, m, active, was, last, len, l, views, hidden)
    requires forall i :: 0 <= i < |active| ==> Layered(d, views[active[i]])
    requires Scattered(d, m, active, views, hidden, len, l, |active|, views') && |hidden'| == |active|
    requires forall i :: 0 <= i < |active| ==> Layered(d, views'[active[i]])
    requires forall i :: 0 <= i < |active| ==>
      hidden'[i] == m.attend(l, hidden[i], views'[active[i]].k[l], views'[active[i]].v[l])
    ensures AtDepth(d, m, active, was, last, len, l + 1, views', hidden')
  {}

  lemma ScatteredRows(d: Dims, m: Llama, active: seq<nat>, was: seq<Lists>, last: seq<int>, len: seq<nat>, l: nat,
                      views: seq<Lists>, hidden: seq<Vec>)
    requires Batch(d, active, was, last, len) && l < d.layers && AtDepth(d, m, active, was, last, len, l, views, hidden)
    ensures forall i :: 0 <= i < |active| ==>
      Layered(d, views[active[i]]) && |views[active[i]].k[l]| == len[active[i]]
  {
    forall i | 0 <= i < |active|
      ensures Layered(d, views[active[i]]) && |views[active[i]].k[l]| == len[active[i]]
    {
      assert Depth(views[active[i]], hidden[i]) == Deep(d, m, was[active[i]], last[active[i]], len[active[i]], l);
      DeepRows(d, m, was[active[i]], last[active[i]], len[active[i]], l, len[active[i]]);
    }
  }

  lemma ScatteredLengths(d: Dims, m: Llama, active: seq<nat>, views: seq<Lists>, hidden: seq<Vec>, len: seq<nat>,
                         l: nat, out: seq<Lists>)
    requires Increasing(active, d.batch) && |hidden| == |active| && |views| == |len| == d.batch && l < d.layers
    requires forall i :: 0 <= i < |active| ==> Layered(d, views[active[i]]) && |views[active[i]].k[l]| == len[active[i]]
    requires Scattered(d, m, active, views, hidden, len, l, |active|, out)
    ensures forall i :: 0 <= i < |active| ==> Layered(d, out[active[i]]) && |out[active[i]].k[l]| == len[active[i]] + 1
  {}

  /** A batched decode step: layer by layer, all sequences together. Each one steps as if it were alone. */
  method DecodeLayers(c: Limits, m: Llama, pool0: Pool, active: seq<nat>, last: seq<int>, len: seq<nat>,
                      ghost was: seq<Lists>) returns (pool: Pool, hidden: seq<Vec>)
    requires ValidLimits(c) && Batch(c.d, active, was, last, len) && Refines(c.d, c.blocks, pool0, was)
    ensures Refines(c.d, c.blocks, pool, StepViews(c.d, m, active, was, last, len))
    ensures hidden == StepHidden(c.d, m, active, was, last, len)
  {
    hide Refines, Entries, MaxBlocks, Batch, AtDepth, Scattered, StepViews, StepHidden;
    assert Increasing(active, c.d.batch) && |len| == c.d.batch by { BatchShape(c.d, active, was, last, len); }
    pool := pool0;
    ghost var views := was;
    hidden := Embed(c.d, m, active, last, len, was);
    var l := 0;
    while l < c.d.layers
      invariant 0 <= l <= c.d.layers && Refines(c.d, c.blocks, pool, views)
      invariant AtDepth(c.d, m, active, was, last, len, l, views, hidden)
    {
      DepthShape(c.d, m, active, was, last, len, l, views, hidden);
      ScatteredRows(c.d, m, active, was, last, len, l, views, hidden);
      ghost var before := views;
      pool, views := Scatter(c, m, pool, active, hidden, len, l, before);
      ScatteredLengths(c.d, m, active, before, hidden, len, l, views);
      ScatteredShape(c.d, m, active, before, hidden, len, l, views);
      var hidden' := Attend(c, m, pool, active, hidden, len, l, views);
      DepthGrows(c.d, m, active, was, last, len, l, before, hidden, views, hidden');
      hidden := hidden';
      l := l + 1;
    }
    StepIsAlone(c.d, m, active, was, last, len, views, hidden);
  }

  lemma BatchShape(d: Dims, active: seq<nat>, views: seq<Lists>, last: seq<int>, len: seq<nat>)
    requires Batch(d, active, views, last, len)
    ensures Increasing(active, d.batch) && |views| == |last| == |len| == d.batch
    ensures forall i :: 0 <= i < |active| ==> len[active[i]] < d.maxSeq
  {}

  lemma DepthShape(d: Dims, m: Llama, active: seq<nat>, was: seq<Lists>, last: seq<int>, len: seq<nat>, l: nat,
                   views: seq<Lists>, hidden: seq<Vec>)
    requires Batch(d, active, was, last, len) && l <= d.layers && AtDepth(d, m, active, was, last, len, l, views, hidden)
    ensures |views| == d.batch && |hidden| == |active| && forall i :: 0 <= i < |active| ==> len[active[i]] < d.maxSeq
  {}

  lemma ScatteredShape(d: Dims, m: Llama, active: seq<nat>, views: seq<Lists>, hidden: seq<Vec>, len: seq<nat>,
                       l: nat, out: seq<Lists>)
    requires Increasing(active, d.batch) && |hidden| == |active| && |views| == |len| == d.batch && l < d.layers
    requires forall i :: 0 <= i < |active| ==> Layered(d, views[active[i]])
    requires Scattered(d, m, active, views, hidden, len, l, |active|, out)
    ensures |out| == d.batch
  {}

  method Embed(d: Dims, m: Llama, active: seq<nat>, last: seq<int>, len: seq<nat>, ghost was: seq<Lists>)
    returns (hidden: seq<Vec>)
    requires Batch(d, active, was, last, len)
    ensures AtDepth(d, m, active, was, last, len, 0, was, hidden)
  {
    hidden := [];
    var i := 0;
    while i < |active|
      invariant 0 <= i <= |active| && |hidden| == i
      invariant forall j :: 0 <= j < i ==> hidden[j] == m.embed(last[active[j]])
    {
      hidden := hidden + [m.embed(last[active[i]])];
      i := i + 1;
    }
  }

  // ---------------------------------------------------------------------------------------------
  // The scheduler
  // ---------------------------------------------------------------------------------------------

  function Cap(c: Limits): int {
    if c.maxNew > 1 then c.maxNew else 1
  }

  /** A live slot is on the way to its prompt's answer; it may still grow by one row. */
  ghost predicate Seated(c: Limits, m: Llama, seat: Seat, answer: seq<int>) {
    && seat.len < c.d.maxSeq && Rows(c.d, seat.rows, seat.len)
    && 1 <= |seat.generated| <= Cap(c) && Alone(c, m, seat) == answer
  }

  /** The tokens a slot may still get. */
  function Left(c: Limits, free: bool, generated: seq<int>): nat {
    if free || |generated| >= c.maxNew then 0 else c.maxNew - |generated|
  }

  function Work(c: Limits, slotFree: seq<bool>, generated: seq<seq<int>>): nat
    requires |slotFree| == |generated|
  {
    if slotFree == [] then 0
    else Left(c, slotFree[0], generated[0]) + Work(c, slotFree[1..], generated[1..])
  }

  lemma {:induction false} WorkDrops(c: Limits, free: seq<bool>, gen: seq<seq<int>>, free': seq<bool>, gen': seq<seq<int>>)
    requires |free| == |gen| == |free'| == |gen'|
    requires forall s :: 0 <= s < |free| ==> Left(c, free'[s], gen'[s]) <= Left(c, free[s], gen[s])
    ensures Work(c, free', gen') <= Work(c, free, gen)
    ensures (exists s :: 0 <= s < |free| && Left(c, free'[s], gen'[s]) < Left(c, free[s], gen[s])) ==>
              Work(c, free', gen') < Work(c, free, gen)
  {
    if free != [] {
      assert forall s :: 0 <= s < |free| - 1 ==>
        free[1..][s] == free[s + 1] && gen[1..][s] == gen[s + 1] && free'[1..][s] == free'[s + 1] && gen'[1..][s] == gen'[s + 1];
      WorkDrops(c, free[1..], gen[1..], free'[1..], gen'[1..]);
      if s :| 0 <= s < |free| && Left(c, free'[s], gen'[s]) < Left(c, free[s], gen[s]) {
        if s > 0 {
          assert Left(c, free'[1..][s - 1], gen'[1..][s - 1]) < Left(c, free[1..][s - 1], gen[1..][s - 1]);
        }
      }
    }
  }

  /** Which ticket each live slot serves; a ticket without an output is the one of a live slot. */
  ghost predicate LogOk(c: Limits, m: Llama, log: seq<Ticket>, slotFree: seq<bool>, serving: seq<nat>) {
    && |slotFree| == |serving| == c.d.batch
    && (forall s :: 0 <= s < c.d.batch && !slotFree[s] ==>
          serving[s] < |log| && log[serving[s]].slot == s && log[serving[s]].out == None)
    && (forall i :: 0 <= i < |log| ==> log[i].slot < c.d.batch)
    && forall i :: 0 <= i < |log| ==>
         if log[i].out == None then !slotFree[log[i].slot] && serving[log[i].slot] == i
         else log[i].out == Some(Answer(c, m, log[i].prompt))
  }

  lemma LogAdmits(c: Limits, m: Llama, log: seq<Ticket>, slotFree: seq<bool>, serving: seq<nat>, s: nat, prompt: seq<int>)
    requires LogOk(c, m, log, slotFree, serving) && s < c.d.batch && slotFree[s]
    ensures LogOk(c, m, log + [Ticket(s, prompt, None)], slotFree[s := false], serving[s := |log|])
    ensures forall t :: 0 <= t < c.d.batch && !slotFree[t] ==> serving[t] < |log|
    ensures Prompts(log + [Ticket(s, prompt, None)]) == Prompts(log) + [prompt]
  {
    hide Answer;
  }

  lemma LogReleases(c: Limits, m: Llama, log: seq<Ticket>, slotFree: seq<bool>, serving: seq<nat>, s: nat, out: seq<int>)
    requires LogOk(c, m, log, slotFree, serving) && s < c.d.batch && !slotFree[s]
    requires serving[s] < |log| && out == Answer(c, m, log[serving[s]].prompt)
    ensures var log' := log[serving[s] := log[serving[s]].(out := Some(out))];
            && LogOk(c, m, log', slotFree[s := true], serving) && Prompts(log') == Prompts(log)
            && forall i :: 0 <= i < |log| ==> log'[i].prompt == log[i].prompt
  {
    hide Answer;
  }

  /** What a decode step did to the slots whose tokens were taken; `same` says that nothing was admitted. */
  ghost predicate Stepped(c: Limits, done: seq<nat>, free0: seq<bool>, gen0: seq<seq<int>>, free: seq<bool>, gen: seq<seq<int>>,
                          same: bool)
    requires |free0| == |gen0| == |free| == |gen|
  {
    && (forall s :: 0 <= s < |free| && s !in done ==> free[s] == free0[s] && gen[s] == gen0[s])
    && (forall s :: 0 <= s < |free| && s in done && !free[s] ==> c.maxNew >= 2 ==> |gen[s]| < c.maxNew)
    && (same ==> forall s :: 0 <= s < |free| && s in done && !free[s] ==> !free0[s] && |gen[s]| > |gen0[s]|)
  }

  lemma NotStepped(c: Limits, active: seq<nat>, free: seq<bool>, gen: seq<seq<int>>)
    requires |free| == |gen|
    ensures active[..0] == [] && Stepped(c, [], free, gen, free, gen, true)
  {}

  lemma SteppedOne(c: Limits, active: seq<nat>, i: nat, free0: seq<bool>, gen0: seq<seq<int>>, free: seq<bool>,
                   gen: seq<seq<int>>, free': seq<bool>, gen': seq<seq<int>>, same: bool, same': bool)
    requires |free0| == |gen0| == |free| == |gen| && i < |active| && Increasing(active, |free|)
    requires Stepped(c, active[..i], free0, gen0, free, gen, same) && (same' ==> same) && !free0[active[i]]
    requires |free'| == |gen'| == |free|
    requires free' == free[active[i] := free'[active[i]]] && gen' == gen[active[i] := gen'[active[i]]]
    requires same' ==> free'[active[i]] || |gen'[active[i]]| > |gen[active[i]]|
    requires !free'[active[i]] && c.maxNew >= 2 ==> |gen'[active[i]]| < c.maxNew
    ensures Stepped(c, active[..i + 1], free0, gen0, free', gen', same')
  {
    assert active[..i + 1] == active[..i] + [active[i]];
  }

  lemma PassUnfinished(c: Limits, active: seq<nat>, free1: seq<bool>, gen1: seq<seq<int>>, free: seq<bool>, gen: seq<seq<int>>,
                       same: bool)
    requires |free1| == |gen1| == |free| == |gen| && Stepped(c, active, free1, gen1, free, gen, same)
    requires forall s :: 0 <= s < |free| ==> (s in active <==> !free1[s] && |gen1[s]| < c.maxNew)
    requires c.maxNew >= 2 ==> forall s :: 0 <= s < |free| && !free1[s] ==> |gen1[s]| < c.maxNew
    ensures c.maxNew >= 2 ==> forall s :: 0 <= s < |free| && !free[s] ==> |gen[s]| < c.maxNew
  {}

  /** A pass that admits nobody leaves less to do. */
  lemma PassWork(c: Limits, active: seq<nat>, free0: seq<bool>, gen0: seq<seq<int>>, free1: seq<bool>, gen1: seq<seq<int>>,
                 free: seq<bool>, gen: seq<seq<int>>, same0: bool, same: bool)
    requires |free0| == |gen0| == |free1| == |gen1| == |free| == |gen| && active != [] && active[0] < |free|
    requires same0 ==> forall s :: 0 <= s < |free| ==> free1[s] || (!free0[s] && gen1[s] == gen0[s])
    requires forall s :: 0 <= s < |free| ==> (s in active <==> !free1[s] && |gen1[s]| < c.maxNew)
    requires Stepped(c, active, free1, gen1, free, gen, same)
    ensures same0 && same ==> Work(c, free, gen) < Work(c, free0, gen0)
  {
    if same0 && same {
      assert forall s :: 0 <= s < |free| ==> Left(c, free[s], gen[s]) <= Left(c, free0[s], gen0[s]);
      assert active[0] in active;
      assert Left(c, free[active[0]], gen[active[0]]) < Left(c, free0[active[0]], gen0[active[0]]);
      WorkDrops(c, free0, gen0, free, gen);
    }
  }

  /** The slots of the batch from the i-th on. */
  function Members(active: seq<nat>, i: nat): set<nat> {
    set j | i <= j < |active| :: active[j]
  }

  lemma MembersFrom(active: seq<nat>, i: nat, batch: nat)
    requires i <= |active| && Increasing(active, batch)
    ensures i == 0 ==> forall s :: s in Members(active, 0) <==> s in active
    ensures i < |active| ==> active[i] in Members(active, i) && Members(active, i + 1) == Members(active, i) - {active[i]}
    ensures i == |active| ==> Members(active, i) == {}
  {}

  /** After the step each sequence of the batch has done its own step; the others are as they were. */
  lemma StepsAlone(d: Dims, m: Llama, active: seq<nat>, was: seq<Lists>, last: seq<int>, len: seq<nat>)
    requires Batch(d, active, was, last, len)
    ensures var views, hidden := StepViews(d, m, active, was, last, len), StepHidden(d, m, active, was, last, len);
            && |views| == d.batch && |hidden| == |active|
            && (forall s :: 0 <= s < d.batch && s !in active ==> views[s] == was[s])
            && forall i, g :: 0 <= i < |active| ==>
                 Decoded(d, m, Seat(was[active[i]], g, last[active[i]], len[active[i]])) == Depth(views[active[i]], hidden[i])
  {
    hide Deep;
    forall i | 0 <= i < |active|
      ensures active[i] in active
    {}
  }

  class Server {
    const c: Limits
    const m: Llama
    ghost const prompts: seq<seq<int>>
    var pool: Pool
    var slotFree: seq<bool>
    var generated: seq<seq<int>>
    var last: seq<int>
    var len: seq<nat>
    var queue: seq<seq<int>>
    ghost var views: seq<Lists>
    ghost var taken: seq<seq<int>>
    ghost var log: seq<Ticket>
    ghost var serving: seq<nat>

    ghost predicate Shape()
      reads this
    {
      && |slotFree| == |generated| == |last| == |len| == |views| == |serving| == c.d.batch
      && forall s :: 0 <= s < c.d.batch && !slotFree[s] ==> serving[s] < |log|
    }

    /** Only slot s changed, and no ticket lost its prompt. */
    twostate predicate OnlySlot(s: nat)
      reads this
      requires Shape() && s < c.d.batch
    {
      && old(Shape())
      && slotFree == old(slotFree)[s := slotFree[s]] && generated == old(generated)[s := generated[s]]
      && last == old(last)[s := last[s]] && len == old(len)[s := len[s]]
      && views == old(views)[s := views[s]] && serving == old(serving)[s := serving[s]]
      && |old(log)| <= |log| && forall i :: 0 <= i < |old(log)| ==> log[i].prompt == old(log)[i].prompt
    }

    ghost function SeatOf(s: nat): Seat
      reads this
      requires Shape() && s < c.d.batch
    {
      Seat(views[s], generated[s], last[s], len[s])
    }

    /** The slots: rows, tickets and progress. Those in `open` are in the middle of a decode step. */
    ghost predicate Slots(open: set<nat>)
      reads this
      requires Shape()
    {
      && ValidLimits(c) && RowPerToken(m)
      && Refines(c.d, c.blocks, pool, views)
      && LogOk(c, m, log, slotFree, serving)
      && (forall s :: 0 <= s < c.d.batch && slotFree[s] ==> views[s] == NoRows(c.d) && s !in open)
      && forall s :: 0 <= s < c.d.batch && !slotFree[s] && s !in open ==>
           Seated(c, m, SeatOf(s), Answer(c, m, log[serving[s]].prompt))
    }

    /** First in, first out: the tickets are the accepted ones of the prompts taken so far. */
    ghost predicate Fifo()
      reads this`taken, this`queue, this`log
    {
      taken + queue == prompts && Prompts(log) == Accepted(taken, c.maxPrompt)
    }

    /** What holds between any two steps. */
    ghost predicate Inv(open: set<nat>)
      reads this
    {
      Shape() && Slots(open) && Fifo()
    }

    constructor (c: Limits, m: Llama, prompts: seq<seq<int>>, kv: seq<Vec>)
      requires ValidLimits(c) && RowPerToken(m) && |kv| == c.blocks * (2 * c.d.blockSize)
      ensures Inv({}) && this.c == c && this.m == m && this.prompts == prompts && queue == prompts && log == []
      ensures forall s :: 0 <= s < c.d.batch ==> slotFree[s] && generated[s] == []
    {
      hide Refines, Entries, RowPerToken, MaxBlocks;
      InitialRefines(c.d, c.blocks, kv);
      this.c, this.m, this.prompts := c, m, prompts;
      pool := Pool(seq(Entries(c.d), i => -1), seq(c.blocks, i => i), kv);
      slotFree, generated := seq(c.d.batch, s => true), seq(c.d.batch, s => []);
      last, len := seq(c.d.batch, s => 0), seq(c.d.batch, s => 0);
      queue := prompts;
      views, taken, log, serving := seq(c.d.batch, s => NoRows(c.d)), [], [], seq(c.d.batch, s => 0);
    }

    /** Frees a slot whose prompt has its answer, and returns its blocks. */
    method Release(s: nat, ghost open: set<nat>)
      requires Inv(open) && s < c.d.batch && !slotFree[s]
      requires generated[s] == Answer(c, m, log[serving[s]].prompt)
      modifies this`slotFree, this`pool, this`views, this`log
      ensures Inv(open - {s}) && slotFree == old(slotFree)[s := true] && views == old(views)[s := NoRows(c.d)]
      ensures log == old(log)[serving[s] := old(log)[serving[s]].(out := Some(generated[s]))]
    {
      hide Refines, Entries, RowPerToken, MaxBlocks, Accepted, Prompts, Seated, Answer, LogOk;
      LogReleases(c, m, log, slotFree, serving, s, generated[s]);
      slotFree := slotFree[s := true];
      pool := ReleaseSlot(c.d, c.blocks, pool, s, views);
      views := views[s := NoRows(c.d)];
      log := log[serving[s] := log[serving[s]].(out := Some(generated[s]))];
    }

    /** Takes the next prompt; one that is too long is dropped and the slot stays free. */
    method Prefill(s: nat, ghost open: set<nat>)
      requires Inv(open) && s < c.d.batch && slotFree[s] && generated[s] == []
      modifies this`slotFree, this`pool, this`views, this`generated, this`last, this`len
      modifies this`queue, this`taken, this`log, this`serving
      ensures Inv(open)
      ensures old(queue) == [] ==>
                queue == [] && slotFree == old(slotFree) && log == old(log) && generated == old(generated)
      ensures old(queue) != [] ==> queue == old(queue)[1..] && (slotFree[s] <==> |old(queue)[0]| > c.maxPrompt)
      ensures slotFree == old(slotFree) || (slotFree == old(slotFree)[s := false] && |generated[s]| == 1)
      ensures generated == old(generated)[s := generated[s]] && last == old(last)[s := last[s]]
      ensures len == old(len)[s := len[s]] && views == old(views)[s := views[s]] && serving == old(serving)[s := serving[s]]
      ensures old(log) <= log
    {
      hide Refines, Entries, RowPerToken, MaxBlocks, Accepted, Prompts, Answer, LogOk, Seated;
      if queue == [] {
        return;
      }
      var prompt := queue[0];
      AcceptOne(taken, prompt, c.maxPrompt);
      assert taken + [prompt] + queue[1..] == taken + queue;
      queue := queue[1..];
      taken := taken + [prompt];
      if |prompt| > c.maxPrompt {
        return;
      }
      LogAdmits(c, m, log, slotFree, serving, s, prompt);
      Occupy(s, prompt, open);
    }

    /** Fills the slot's blocks with the rows of the prompt and records its first token. */
    method Occupy(s: nat, prompt: seq<int>, ghost open: set<nat>)
      requires Shape() && Slots(open) && s < c.d.batch && slotFree[s] && generated[s] == [] && |prompt| <= c.maxPrompt
      modifies this`slotFree, this`pool, this`views, this`generated, this`last, this`len, this`log, this`serving
      ensures Shape() && Slots(open) && slotFree == old(slotFree)[s := false] && log == old(log) + [Ticket(s, prompt, None)]
      ensures |generated[s]| == 1
      ensures generated == old(generated)[s := generated[s]] && last == old(last)[s := last[s]]
      ensures len == old(len)[s := len[s]] && views == old(views)[s := views[s]] && serving == old(serving)[s := serving[s]]
    {
      hide Refines, Entries, RowPerToken, MaxBlocks, Answer, Start, LogOk, Seated, Prompts;
      LogAdmits(c, m, log, slotFree, serving, s, prompt);
      SeatedAtStart(c, m, prompt);
      slotFree := slotFree[s := false];
      pool := FillLayers(c, m, pool, s, prompt, views);
      views := views[s := PromptRows(c.d, m, prompt, c.d.layers)];
      serving := serving[s := |log|];
      log := log + [Ticket(s, prompt, None)];
      var token := m.firstToken(prompt);
      generated := generated[s := generated[s] + [token]];
      last := last[s := token];
      len := len[s := |prompt|];
    }

    /** The answer of a slot that holds enough tokens is what it holds. */
    lemma Finished(s: nat, open: set<nat>)
      requires Shape() && Slots(open) && s < c.d.batch && !slotFree[s] && s !in open && |generated[s]| >= c.maxNew
      ensures generated[s] == Answer(c, m, log[serving[s]].prompt)
    {
      hide Refines, Entries, RowPerToken, MaxBlocks, Answer, LogOk;
      assert Seated(c, m, SeatOf(s), Answer(c, m, log[serving[s]].prompt));
    }

    /** A live slot holds at least its first token. */
    lemma LiveHasToken()
      requires Inv({})
      ensures forall s :: 0 <= s < c.d.batch && !slotFree[s] ==> |generated[s]| >= 1
    {
      hide Refines, Entries, RowPerToken, MaxBlocks, Answer, LogOk;
      forall s | 0 <= s < c.d.batch && !slotFree[s]
        ensures |generated[s]| >= 1
      {
        assert Seated(c, m, SeatOf(s), Answer(c, m, log[serving[s]].prompt));
      }
    }

    method Clear(s: nat, ghost open: set<nat>)
      requires Inv(open) && s < c.d.batch && slotFree[s]
      modifies this`generated
      ensures Inv(open) && generated == old(generated)[s := []]
    {
      hide Refines, Entries, RowPerToken, MaxBlocks, Answer, LogOk, Seated;
      generated := generated[s := []];
    }

    /** Releases a finished slot and gives it the next prompt, if one waits. */
    method Replace(s: nat, ghost open: set<nat>)
      requires Inv(open) && s < c.d.batch && s !in open && !slotFree[s] && |generated[s]| >= c.maxNew
      modifies this`slotFree, this`pool, this`views, this`generated, this`last, this`len
      modifies this`queue, this`taken, this`log, this`serving
      ensures Inv(open) && OnlySlot(s)
      ensures if old(queue) == [] then queue == [] && slotFree[s]
              else queue == old(queue)[1..] && (slotFree[s] <==> |old(queue)[0]| > c.maxPrompt)
      ensures !slotFree[s] ==> |generated[s]| == 1
    {
      hide Server.Slots, Server.Fifo, Answer;
      Finished(s, open);
      Release(s, open);
      assert open - {s} == open;
      if queue != [] {
        Clear(s, open);
        Prefill(s, open);
      }
    }

    /** What the pass does with one slot: refill a free one, replace a finished one, or decode it. */
    method Visit(s: nat) returns (active: bool)
      requires Inv({}) && s < c.d.batch
      modifies this`slotFree, this`pool, this`views, this`generated, this`last, this`len
      modifies this`queue, this`taken, this`log, this`serving
      ensures Inv({})
      ensures active <==> !slotFree[s] && |generated[s]| < c.maxNew
      ensures |queue| <= |old(queue)| && (!active && queue != [] ==> |queue| < |old(queue)|)
      ensures |queue| == |old(queue)| ==> slotFree[s] || (!old(slotFree)[s] && generated[s] == old(generated)[s])
      ensures slotFree[s] || (!old(slotFree)[s] && generated[s] == old(generated)[s]) || |generated[s]| == 1
      ensures old(queue) == [] ==> queue == []
      ensures c.maxNew < 2 ==> !active && (slotFree[s], queue) == Turned(old(slotFree)[s], old(queue), c.maxPrompt)
      ensures slotFree == old(slotFree)[s := slotFree[s]] && generated == old(generated)[s := generated[s]]
    {
      hide Server.Slots, Server.Fifo, Answer;
      active := false;
      LiveHasToken();
      if slotFree[s] {
        if queue == [] {
          return;
        }
        Clear(s, {});
        Prefill(s, {});
        if slotFree[s] {
          return;
        }
      }
      if |generated[s]| >= c.maxNew {
        Replace(s, {});
        if slotFree[s] || |generated[s]| >= c.maxNew {
          return;
        }
      }
      active := true;
    }

    /** Refills and releases, slot by slot, and lists the slots to decode. */
    method AdmitPass() returns (active: seq<nat>)
      requires Inv({})
      modifies this`slotFree, this`pool, this`views, this`generated, this`last, this`len
      modifies this`queue, this`taken, this`log, this`serving
      ensures Inv({}) && Increasing(active, c.d.batch)
      ensures forall s :: 0 <= s < c.d.batch ==> (s in active <==> !slotFree[s] && |generated[s]| < c.maxNew)
      ensures |queue| <= |old(queue)| && (active == [] && queue != [] ==> |queue| < |old(queue)|)
      ensures |queue| == |old(queue)| ==> forall s :: 0 <= s < c.d.batch ==>
                slotFree[s] || (!old(slotFree)[s] && generated[s] == old(generated)[s])
      ensures c.maxNew < 2 ==> active == [] && Hall(slotFree, queue) == Passed(Hall(old(slotFree), old(queue)), c.maxPrompt)
      ensures forall s :: 0 <= s < c.d.batch ==>
                slotFree[s] || (!old(slotFree)[s] && generated[s] == old(generated)[s]) || |generated[s]| == 1
    {
      hide Server.Slots, Server.Fifo, Turned, PassTo, Admitted, Increasing;
      active := [];
      ghost var hall := Hall(slotFree, queue);
      SlotCount();
      NobodyAdmitted(c.maxNew, slotFree, generated);
      PassNone(hall, c.maxPrompt);
      var s := 0;
      while s < c.d.batch
        invariant 0 <= s <= c.d.batch && Inv({}) && Increasing(active, s)
        invariant c.maxNew < 2 ==> active == []
        invariant |slotFree| == c.d.batch && (c.maxNew < 2 ==> Hall(slotFree, queue) == PassTo(hall, c.maxPrompt, s))
        invariant |queue| <= |old(queue)| && (active == [] && queue != [] && s > 0 ==> |queue| < |old(queue)|)
        invariant Admitted(c.maxNew, s, old(slotFree), old(generated), slotFree, generated, active, |queue| == |old(queue)|)
      {
        ghost var free, gen, active0, waiting := slotFree, generated, active, |queue|;
        PassOne(hall, c.maxPrompt, s);
        var decode := Visit(s);
        if decode {
          active := active + [s];
        }
        AdmittedOne(c.maxNew, s, c.d.batch, old(slotFree), old(generated), free, gen, active0, waiting == |old(queue)|,
                    slotFree, generated, active, |queue| == |old(queue)|);
        s := s + 1;
      }
      BatchPositive();
      SlotCount();
      AdmittedAll(c.maxNew, old(slotFree), old(generated), slotFree, generated, active, |queue| == |old(queue)|);
    }

    lemma SlotCount()
      requires Inv({})
      ensures |slotFree| == c.d.batch
    {
      hide Refines, LogOk, Seated, RowPerToken, Entries;
    }

    lemma BatchPositive()
      requires Inv({})
      ensures c.d.batch > 0 && ValidLimits(c)
    {
      hide Refines, LogOk, Seated, RowPerToken, Entries;
    }

    /** A sequence inside a decode step: its seat before it, and the step's rows and hidden state. */
    ghost predicate Waiting(s: nat, before: Lists, hidden: Vec)
      reads this
      requires Shape() && s < c.d.batch
    {
      && !slotFree[s] && |generated[s]| < c.maxNew
      && var seat := Seat(before, generated[s], last[s], len[s]);
      && Seated(c, m, seat, Answer(c, m, log[serving[s]].prompt))
      && Decoded(c.d, m, seat) == Depth(views[s], hidden)
    }

    /** What the sequence alone does with its token. */
    lemma StepOfSeat(s: nat, before: Lists, hidden: Vec)
      requires Shape() && s < c.d.batch && Waiting(s, before, hidden)
      ensures var token, answer := m.pick(hidden), Answer(c, m, log[serving[s]].prompt);
              if token == END_OF_TEXT || token == EOT_ID || len[s] == c.d.maxSeq - 1 then generated[s] == answer
              else Seated(c, m, Seat(views[s], generated[s] + [token], token, len[s] + 1), answer)
    {
      var seat := Seat(before, generated[s], last[s], len[s]);
      DecodedRows(c.d, m, seat);
    }

    /** Keeps a token: the slot is settled again, one row and one token further. */
    method Advance(s: nat, token: int, ghost before: Lists, ghost hidden: Vec, ghost open: set<nat>)
      requires Inv(open) && s < c.d.batch && s in open && Waiting(s, before, hidden) && token == m.pick(hidden)
      requires token != END_OF_TEXT && token != EOT_ID && len[s] != c.d.maxSeq - 1
      modifies this`generated, this`last, this`len
      ensures Inv(open - {s}) && generated == old(generated)[s := old(generated)[s] + [token]]
      ensures last == old(last)[s := token] && len == old(len)[s := old(len)[s] + 1]
    {
      hide Refines, Entries, RowPerToken, MaxBlocks, Answer, LogOk, Seated;
      StepOfSeat(s, before, hidden);
      last := last[s := token];
      generated := generated[s := generated[s] + [token]];
      len := len[s := len[s] + 1];
    }

    /** Ends one sequence's decode step: stop and free the slot, or keep the token; refill on the last one. */
    method TakeToken(s: nat, token: int, ghost before: Lists, ghost hidden: Vec, ghost open: set<nat>)
      requires Inv(open) && s < c.d.batch && s in open && Waiting(s, before, hidden) && token == m.pick(hidden)
      modifies this`slotFree, this`pool, this`views, this`generated, this`last, this`len
      modifies this`queue, this`taken, this`log, this`serving
      ensures Inv(open - {s}) && OnlySlot(s)
      ensures |queue| <= |old(queue)|
      ensures |queue| == |old(queue)| ==> slotFree[s] || |generated[s]| > |old(generated)[s]|
      ensures !slotFree[s] && c.maxNew >= 2 ==> |generated[s]| < c.maxNew
    {
      hide Server.Slots, Server.Fifo, Answer, Seated;
      StepOfSeat(s, before, hidden);
      if token == END_OF_TEXT || token == EOT_ID || len[s] == c.d.maxSeq - 1 {
        Release(s, open);
      } else {
        Advance(s, token, before, hidden, open);
        if |generated[s]| >= c.maxNew {
          Replace(s, open - {s});
        }
      }
    }

    /** All layers of a decode step; afterwards every sequence of the batch waits for its token. */
    method StepLayers(active: seq<nat>, ghost was: seq<Lists>) returns (hidden: seq<Vec>)
      requires Inv({}) && Increasing(active, c.d.batch) && was == views
      requires forall s :: 0 <= s < c.d.batch && s in active ==> !slotFree[s] && |generated[s]| < c.maxNew
      modifies this`pool, this`views
      ensures Inv(Members(active, 0)) && |hidden| == |active| && |was| == c.d.batch
      ensures AllWait(active, was, hidden, 0)
    {
      hide Refines, Entries, RowPerToken, MaxBlocks, Answer, LogOk, Seated, StepViews, StepHidden;
      SeatsOfBatch(active);
      pool, hidden := DecodeLayers(c, m, pool, active, last, len, was);
      views := StepViews(c.d, m, active, was, last, len);
      StepsAlone(c.d, m, active, was, last, len);
      MembersFrom(active, 0, c.d.batch);
      hide Refines;
    }

    lemma SeatsOfBatch(active: seq<nat>)
      requires Inv({}) && Increasing(active, c.d.batch)
      requires forall s :: 0 <= s < c.d.batch && s in active ==> !slotFree[s]
      ensures Batch(c.d, active, views, last, len)
    {
      hide Refines, Entries, RowPerToken, Answer, LogOk;
      forall i | 0 <= i < |active|
        ensures len[active[i]] < c.d.maxSeq && Rows(c.d, views[active[i]], len[active[i]])
      {
        assert active[i] in active;
        assert Seated(c, m, SeatOf(active[i]), Answer(c, m, log[serving[active[i]]].prompt));
      }
    }

    /** The sequences from the i-th on wait for their tokens. */
    ghost predicate AllWait(active: seq<nat>, was: seq<Lists>, hidden: seq<Vec>, i: nat)
      reads this
      requires Shape() && Increasing(active, c.d.batch) && |was| == c.d.batch && |hidden| == |active|
    {
      forall j :: i <= j < |active| ==> Waiting(active[j], was[active[j]], hidden[j])
    }

    /** The i-th sequence of the batch takes its token. */
    method TakeNext(active: seq<nat>, ghost was: seq<Lists>, hidden: seq<Vec>, i: nat)
      requires i < |active| && Increasing(active, c.d.batch) && |was| == c.d.batch && |hidden| == |active|
      requires Inv(Members(active, i)) && AllWait(active, was, hidden, i)
      modifies this`slotFree, this`pool, this`views, this`generated, this`last, this`len
      modifies this`queue, this`taken, this`log, this`serving
      ensures Inv(Members(active, i + 1)) && AllWait(active, was, hidden, i + 1) && |queue| <= |old(queue)|
      ensures active[i] < c.d.batch && slotFree == old(slotFree)[active[i] := slotFree[active[i]]]
      ensures generated == old(generated)[active[i] := generated[active[i]]]
      ensures |queue| == |old(queue)| ==> slotFree[active[i]] || |generated[active[i]]| > |old(generated)[active[i]]|
      ensures !slotFree[active[i]] && c.maxNew >= 2 ==> |generated[active[i]]| < c.maxNew
    {
      hide Server.Slots, Server.Fifo, Answer, Members, Seated, Decoded;
      TakesPlace(active, was, hidden, i);
      TakeToken(active[i], m.pick(hidden[i]), was[active[i]], hidden[i], Members(active, i));
    }

    /** One decode step of the whole batch. */
    method DecodeStep(active: seq<nat>)
      requires Inv({}) && Increasing(active, c.d.batch)
      requires forall s :: 0 <= s < c.d.batch && s in active ==> !slotFree[s] && |generated[s]| < c.maxNew
      modifies this`slotFree, this`pool, this`views, this`generated, this`last, this`len
      modifies this`queue, this`taken, this`log, this`serving
      ensures Inv({}) && |queue| <= |old(queue)|
      ensures |slotFree| == |generated| == |old(slotFree)| == |old(generated)|
      ensures Stepped(c, active, old(slotFree), old(generated), slotFree, generated, |queue| == |old(queue)|)
    {
      hide Server.Slots, Server.Fifo, Server.Waiting, Server.AllWait, Stepped, Increasing, Answer, Members;
      ghost var was := views;
      NotStepped(c, active, slotFree, generated);
      var hidden := StepLayers(active, was);
      var i := 0;
      while i < |active|
        invariant 0 <= i <= |active| && Inv(Members(active, i)) && |queue| <= |old(queue)| && AllWait(active, was, hidden, i)
        invariant Stepped(c, active[..i], old(slotFree), old(generated), slotFree, generated, |queue| == |old(queue)|)
      {
        ghost var free, gen, waiting := slotFree, generated, |queue|;
        TakeNext(active, was, hidden, i);
        SteppedOne(c, active, i, old(slotFree), old(generated), free, gen, slotFree, generated,
                   waiting == |old(queue)|, |queue| == |old(queue)|);
        i := i + 1;
      }
      MembersFrom(active, i, c.d.batch);
      assert active[..i] == active;
    }

    lemma TakesPlace(active: seq<nat>, was: seq<Lists>, hidden: seq<Vec>, i: nat)
      requires Shape() && Increasing(active, c.d.batch) && |was| == c.d.batch && |hidden| == |active|
      requires i < |active| && AllWait(active, was, hidden, i)
      ensures active[i] < c.d.batch && active[i] in Members(active, i)
      ensures Members(active, i + 1) == Members(active, i) - {active[i]}
      ensures Waiting(active[i], was[active[i]], hidden[i])
    {
      hide Server.Waiting;
      MembersFrom(active, i, c.d.batch);
    }

    /** The first admission, before the loop. */
    method FillSlots()
      requires Inv({}) && forall s :: 0 <= s < c.d.batch ==> slotFree[s] && generated[s] == []
      modifies this`slotFree, this`pool, this`views, this`generated, this`last, this`len
      modifies this`queue, this`taken, this`log, this`serving
      ensures Inv({}) && forall s :: 0 <= s < c.d.batch && !slotFree[s] ==> |generated[s]| == 1
      ensures Hall(slotFree, queue) == FillTo(old(queue), c.d.batch, c.maxPrompt, c.d.batch)
    {
      hide Server.Slots, Server.Fifo;
      var s := 0;
      while s < c.d.batch && queue != []
        invariant 0 <= s <= c.d.batch && Inv({})
        invariant forall t :: 0 <= t < s && !slotFree[t] ==> |generated[t]| == 1
        invariant forall t :: s <= t < c.d.batch ==> slotFree[t] && generated[t] == []
        invariant |slotFree| == c.d.batch && Hall(slotFree, queue) == FillTo(old(queue), c.d.batch, c.maxPrompt, s)
      {
        if slotFree[s] {
          Prefill(s, {});
        }
        s := s + 1;
      }
      FillStops(old(queue), c.d.batch, c.maxPrompt, s);
    }

    /**
     Serves the whole queue. Every accepted prompt is admitted in order, to one slot, and gets the
     tokens it would get alone; with at least two tokens per prompt every slot and every block is
     free again at the end. With fewer, that depends on the lengths of the prompts alone (Leaves): it is so
     whenever the queue is no longer than the batch, and only then when no prompt is too long; otherwise
     the last answers are complete but still sit in their slots.
     */
    method Serve()
      requires Inv({}) && forall s :: 0 <= s < c.d.batch ==> slotFree[s] && generated[s] == []
      requires queue == prompts
      modifies this`slotFree, this`pool, this`views, this`generated, this`last, this`len
      modifies this`queue, this`taken, this`log, this`serving
      ensures Inv({}) && queue == [] && Prompts(log) == Accepted(prompts, c.maxPrompt)
      ensures forall i :: 0 <= i < |log| ==>
                log[i].out == Some(Answer(c, m, log[i].prompt)) ||
                (c.maxNew < 2 && !slotFree[log[i].slot] && generated[log[i].slot] == Answer(c, m, log[i].prompt))
      ensures c.maxNew >= 2 ==> AllFree(slotFree)
      ensures c.d.batch > 0 && (c.maxNew < 2 ==> (AllFree(slotFree) <==> Leaves(prompts, c.d.batch, c.maxPrompt)))
      ensures c.maxNew < 2 && |prompts| <= c.d.batch ==> AllFree(slotFree)
      ensures c.maxNew < 2 && AllShort(prompts, c.maxPrompt) ==> (AllFree(slotFree) <==> |prompts| <= c.d.batch)
      ensures AllFree(slotFree) ==>
                multiset(pool.free) == AllBlocks(c.blocks) && forall i :: 0 <= i < |pool.table| ==> pool.table[i] == -1
    {
      hide Server.Slots, Server.Fifo, Increasing, Stepped, Left, Work, Answer, AllBlocks;
      FillSlots();
      BatchPositive();
      SlotCount();
      LeaveWhen(prompts, c.d.batch, c.maxPrompt);
      while true
        invariant Inv({}) && |slotFree| == c.d.batch
        invariant c.maxNew < 2 ==> EndsFree(Hall(slotFree, queue), c.maxPrompt) == Leaves(prompts, c.d.batch, c.maxPrompt)
        invariant c.maxNew >= 2 ==> forall s :: 0 <= s < c.d.batch && !slotFree[s] ==> |generated[s]| < c.maxNew
        decreases |queue|, Work(c, slotFree, generated)
      {
        ghost var free0, gen0, waiting0 := slotFree, generated, |queue|;
        var active := AdmitPass();
        if active == [] {
          if queue == [] {
            break;
          }
          continue;
        }
        ghost var free1, gen1, waiting1 := slotFree, generated, |queue|;
        SomeActive(active);
        DecodeStep(active);
        PassUnfinished(c, active, free1, gen1, slotFree, generated, |queue| == waiting1);
        PassWork(c, active, free0, gen0, free1, gen1, slotFree, generated, waiting0 == waiting1, |queue| == waiting1);
      }
      AtExit();
    }

    lemma SomeActive(active: seq<nat>)
      requires Inv({}) && active != [] && Increasing(active, c.d.batch)
      ensures active[0] in active && active[0] < c.d.batch
    {
      hide Server.Slots, Server.Fifo;
    }

    /** What the invariant says once the loop has ended. */
    lemma AtExit()
      requires Inv({}) && queue == []
      requires forall s :: 0 <= s < c.d.batch && !slotFree[s] ==> |generated[s]| >= c.maxNew
      ensures Prompts(log) == Accepted(prompts, c.maxPrompt)
      ensures forall i :: 0 <= i < |log| ==> log[i].slot < c.d.batch
      ensures forall i :: 0 <= i < |log| ==>
                log[i].out == Some(Answer(c, m, log[i].prompt)) ||
                (!slotFree[log[i].slot] && generated[log[i].slot] == Answer(c, m, log[i].prompt))
      ensures AllFree(slotFree) ==>
                multiset(pool.free) == AllBlocks(c.blocks) && forall i :: 0 <= i < |pool.table| ==> pool.table[i] == -1
    {
      hide Refines, Entries, RowPerToken, Answer, MaxBlocks, AllBlocks, Seated;
      assert taken == taken + queue;
      forall i | 0 <= i < |log| && log[i].out == None
        ensures generated[log[i].slot] == Answer(c, m, log[i].prompt)
      {
        Finished(log[i].slot, {});
      }
      if AllFree(slotFree) {
        AllReturned(c.d, c.blocks, pool, views);
      }
    }
  }

  lemma SeatedAtStart(c: Limits, m: Llama, prompt: seq<int>)
    requires ValidLimits(c) && RowPerToken(m) && |prompt| <= c.maxPrompt
    ensures Seated(c, m, Start(c.d, m, prompt), Answer(c, m, prompt))
    ensures Start(c.d, m, prompt) ==
            Seat(PromptRows(c.d, m, prompt, c.d.layers), [] + [m.firstToken(prompt)], m.firstToken(prompt), |prompt|)
  {
    PromptRowsShape(c.d, m, prompt);
  }

  lemma {:induction false} AcceptedAll(prompts: seq<seq<int>>, maxPrompt: nat)
    requires AllShort(prompts, maxPrompt)
    ensures Accepted(prompts, maxPrompt) == prompts
  {
    if prompts != [] {
      AcceptedAll(prompts[..|prompts| - 1], maxPrompt);
    }
  }

  /** One slot, two prompts and one token each: the loop ends with the second answer in its slot. */
  method OneTokenEach(m: Llama) returns (s: Server)
    requires RowPerToken(m)
    ensures s.prompts == [[1], [2]] && s.c.maxNew == 1 && s.c.d.batch == 1
    ensures s.queue == [] && Prompts(s.log) == s.prompts && s.slotFree == [false]
  {
    hide Server.Slots, Server.Fifo, Answer, AllBlocks, RowPerToken, Accepted;
    AcceptedAll([[1], [2]], 1);
    var c := Limits(Dims(1, 2, 2, 1), 1, 1, 1);
    var kv: seq<Vec> := [[], [], [], []];
    s := new Server(c, m, [[1], [2]], kv);
    s.Serve();
  }
}
