/**
 Inputs at which the decode engine does less than one might expect: forward drafts that change the
 output, a last forward pass that only generation takes, and a call after the end of a request.
 */
module Dsv4Examples {
  import opened Results
  import opened Dsv4Net
  import opened Dsv4Slot
  import opened CkptPolicy
  import opened Dsv4Ckpt
  import opened Dsv4Decode
  import opened Dsv4Draft
  import opened Dsv4Generate

  /** One layer that leaves the embedding of a token alone; the expert of token `bad` cannot be loaded. */
  ghost predicate Toy(net: Net, bad: int) {
    && net.layers == 1 && !net.officialAttn(0) && !net.officialFfn(0) && !net.dsaLive(0)
    && (forall id :: net.embed(id) == [id as real])
    && (forall x :: |x| == 1 ==> net.mhcMix(0, x) == x)
    && (forall x :: net.head(x) == x && net.pool(x) == x)
    && (forall x, y :: net.addHead(x, y) == x)
    && (forall x, at: nat :: net.kvRow(0, x, at) == x)
    && forall x :: net.ffn(0, x) == if x == [bad as real] then None else Some(x)
  }

  method ToyNet(bad: int) returns (net: Net)
    ensures Toy(net, bad) && Shaped(net, 1)
  {
    net := new Net(1, 0, Row([], None, None), [0.0], (id: int) => [id as real], (l: nat) => false, (l: nat) => false,
                   (l: nat, b: bool, x: Vec) => Entered(x, Mix([], [])), (x: Vec, y: Vec, mix: Mix) => [0.0],
                   (l: nat, x: Vec) => if |x| == 1 then x else [0.0], (x: Vec) => x, (x: Vec, y: Vec) => x,
                   (l: nat, x: Vec, at: nat) => x,
                   (l: nat) => false, (l: nat) => false, (l: nat, x: Vec) => x, (l: nat, x: Vec) => x,
                   (l: nat, x: Vec, a: seq<Option<Vec>>, b: seq<Option<Vec>>) => [], (l: nat, x: Vec, at: nat, vs: seq<Vec>) => x,
                   (l: nat, x: Vec) => if x == [bad as real] then None else Some(x), (x: Vec) => x);
  }

  /** A request without grammar, text or stop strings. */
  ghost predicate Simple(gp: GenParams, maxNew: int) {
    gp.maxNew == maxNew && !gp.grammarReady && !gp.hasText && !gp.logprobs
  }

  method Request(maxNew: int, stopId: int, sample: (Vec, seq<int>, nat, Option<seq<bool>>) -> Sampled) returns (gp: GenParams)
    ensures Simple(gp, maxNew) && gp.sample == sample && forall id :: gp.isStop(id) <==> id == stopId
  {
    gp := new GenParams(maxNew, 1, -1, 0, 0, false, false, false, (id: int) => "", (t: string) => false,
                        (id: int) => id == stopId, (ts: seq<string>) => [], sample);
  }

  lemma ToyStep(net: Net, bad: int, s: KvState, id: int)
    requires Toy(net, bad) && |s.rows| == 1
    ensures var f := Step(net, s, id);
            f.ok == (id != bad) && f.s == KvState(s.pos + 1, [s.rows[0] + [Row([id as real], None, None)]], [id as real])
  {
    var st := [id as real];
    assert id != bad ==> st[0] != [bad as real][0];
    assert Layer(net, 0, s.rows[0], st).row == Row(st, None, None);
    assert Layers(net, 1, s.rows[1..], st) == TokenOut(true, [], st);
    assert id != bad ==> Layer(net, 0, s.rows[0], st).st == st;
  }

  lemma ToyPrompt(net: Net, bad: int, gp: GenParams, maxNew: int)
    requires Toy(net, bad) && Simple(gp, maxNew) && bad != 5
    ensures var d := StartDec(net, gp, [5]);
            && Cold(net, [5]).ok && d.history == [5] && d.kv == KvState(1, [[Row([5.0], None, None)]], [5.0])
            && d.allow == None && d.decoded == ""
  {
    assert Empty(net).rows == [[]];
    FeedOne(net, Empty(net), 5);
    ToyStep(net, bad, Empty(net), 5);
    assert [] + [Row([5 as real], None, None)] == [Row([5.0], None, None)];
  }

  // ---------------------------------------------------------------------------------------------
  // Forward drafts
  // ---------------------------------------------------------------------------------------------

  /**
   For every draft depth from two on, and every request of at least two tokens, there are a network, a
   request and a forward draft head whose output differs from plain generation.
   */
  method ForwardDraftsDiffer(depth: nat, maxNew: int) returns (net: Net, gp: GenParams, dr: Drafter)
    requires depth >= 2 && maxNew >= 2
    ensures dr.mode == Forward && dr.depth == depth && gp.maxNew == maxNew && Cold(net, [5]).ok
    ensures Drafted(net, gp, dr, StartDec(net, gp, [5]), maxNew).tokens != Plain(net, gp, StartDec(net, gp, [5]), maxNew).tokens
  {
    net := ToyNet(-1);
    gp := Request(maxNew, -1, (h: Vec, history: seq<int>, rng: nat, allow: Option<seq<bool>>) => Sampled(7, rng, 0.0));
    dr := new Drafter(depth, Forward, 1, (prev: int) => -1,
                      (h: Vec, prev: int) => Proposal(if prev == 5 then 7 else 9, h, false));
    ToyPrompt(net, -1, gp, maxNew);
    var d := StartDec(net, gp, [5]);
    PlainSevens(net, gp, d, maxNew);
    DraftedNine(net, gp, dr, d, maxNew);
  }

  ghost predicate AlwaysSeven(gp: GenParams) {
    (forall h, history, rng: nat, allow :: gp.sample(h, history, rng, allow).token == 7) &&
    forall id :: id >= 0 ==> !gp.isStop(id)
  }

  lemma PlainSevens(net: Net, gp: GenParams, d: Dec, maxNew: int)
    requires Toy(net, -1) && Simple(gp, maxNew) && maxNew >= 2 && AlwaysSeven(gp) && |d.kv.rows| == 1
    ensures var p := Plain(net, gp, d, maxNew); |p.tokens| >= 2 && p.tokens[1] == 7
  {
    hide Plain, Dsv4Net.Step;
    var i := Iter(net, gp, d);
    ToyStep(net, -1, d.kv, 7);
    assert i.ok && !i.stopped && i.token == 7;
    var j := Iter(net, gp, i.d);
    ToyStep(net, -1, i.d.kv, 7);
    assert j.ok && !j.stopped && j.token == 7;
    PlainUnfold(net, gp, d, maxNew);
    PlainUnfold(net, gp, i.d, maxNew - 1);
  }

  lemma PlainUnfold(net: Net, gp: GenParams, d: Dec, n: int)
    requires n > 0 && Iter(net, gp, d).ok && !Iter(net, gp, d).stopped
    ensures Plain(net, gp, d, n).tokens == [Iter(net, gp, d).token] + Plain(net, gp, Iter(net, gp, d).d, n - 1).tokens
  {
    hide Iter;
  }

  lemma DraftedNine(net: Net, gp: GenParams, dr: Drafter, d: Dec, maxNew: int)
    requires Toy(net, -1) && Simple(gp, maxNew) && maxNew >= 2 && AlwaysSeven(gp)
    requires dr.mode == Forward && dr.depth >= 2 && dr.hidden == 1
    requires forall h, prev :: dr.forwardStep(h, prev) == Proposal(if prev == 5 then 7 else 9, h, false)
    requires d.history == [5] && d.kv.streams == [5.0]
    ensures var r := Drafted(net, gp, dr, d, maxNew); |r.tokens| >= 2 && r.tokens[1] == 9
  {
    hide Feed;
    var n := Shorter(dr.depth, maxNew);
    var draft := Chain(dr, [5], true, [5.0], 5, n);
    assert draft == [7] + Chain(dr, [5], true, [5.0], 7, n - 1);
    assert Chain(dr, [5], true, [5.0], 7, n - 1) == [9] + Chain(dr, [5], true, [5.0], 9, n - 2);
    assert TurnBatch(dr, [5], [5.0], 7, maxNew) == draft;
    var b := DraftIter(net, gp, dr, d, maxNew);
    assert |b.batch| >= 2 && b.batch[1] == 9 by {
      var e := EmitAll(gp, AfterSample(net, gp, d), draft);
      assert e.n >= 2;
    }
    hide DraftIter;
  }

  // ---------------------------------------------------------------------------------------------
  // The last forward pass
  // ---------------------------------------------------------------------------------------------

  /** A request of one token whose last forward pass fails: the calls succeed and generation does not. */
  method LastPassFails() returns (net: Net, gp: GenParams)
    ensures gp.maxNew == 1 && Cold(net, [5]).ok
    ensures !Plain(net, gp, StartDec(net, gp, [5]), 1).ok && Drain(net, gp, StartDec(net, gp, [5]), 0).ok
  {
    net := ToyNet(7);
    gp := Request(1, -1, (h: Vec, history: seq<int>, rng: nat, allow: Option<seq<bool>>) => Sampled(7, rng, 0.0));
    ToyPrompt(net, 7, gp, 1);
    var d := StartDec(net, gp, [5]);
    ToyStep(net, 7, d.kv, 7);
    assert Next(net, gp, d, 0).ok && Next(net, gp, d, 0).done;
    assert !Iter(net, gp, d).ok;
  }

  // ---------------------------------------------------------------------------------------------
  // A call after the end
  // ---------------------------------------------------------------------------------------------

  /**
   A request that a stop id has ended, a further call that ends it again, and one more: the slot is still
   live, the last call succeeds, and it feeds its token where two others wait, so that the rows are no
   longer those of the history.
   */
  method CallsAfterTheEnd(maxNew: int) returns (net: Net, gp: GenParams)
    requires maxNew >= 4
    ensures gp.maxNew == maxNew && Cold(net, [5]).ok
    ensures var c1 := Next(net, gp, StartDec(net, gp, [5]), 0);
            var c2 := Next(net, gp, c1.d, c1.emitted);
            var c3 := Next(net, gp, c2.d, c2.emitted);
            && c1.ok && c1.done && FaithfulDec(net, c1.d) && Unfed(c1.d) == 1
            && c2.ok && c2.done && FaithfulDec(net, c2.d) && Unfed(c2.d) == 2
            && c3.ok && !c3.done && !FaithfulDec(net, c3.d)
  {
    net := ToyNet(-1);
    gp := Request(maxNew, 7, (h: Vec, history: seq<int>, rng: nat, allow: Option<seq<bool>>) =>
      Sampled(if |history| <= 2 then 7 else 8, rng, 0.0));
    ToyPrompt(net, -1, gp, maxNew);
    AfterTheEnd(net, gp, StartDec(net, gp, [5]), maxNew);
  }

  lemma AfterTheEnd(net: Net, gp: GenParams, d: Dec, maxNew: int)
    requires Toy(net, -1) && Simple(gp, maxNew) && maxNew >= 4 && forall id :: gp.isStop(id) <==> id == 7
    requires forall h, history, rng: nat, allow :: gp.sample(h, history, rng, allow).token == if |history| <= 2 then 7 else 8
    requires d.history == [5] && d.kv.pos == 1 && |d.kv.rows| == 1 && Cold(net, [5]) == Fed(true, d.kv)
    ensures var c1 := Next(net, gp, d, 0);
            var c2 := Next(net, gp, c1.d, c1.emitted);
            var c3 := Next(net, gp, c2.d, c2.emitted);
            && c1.ok && c1.done && FaithfulDec(net, c1.d) && Unfed(c1.d) == 1
            && c2.ok && c2.done && FaithfulDec(net, c2.d) && Unfed(c2.d) == 2
            && c3.ok && !c3.done && !FaithfulDec(net, c3.d)
  {
    hide Cold, Next, Dsv4Net.Step;
    assert FaithfulDec(net, d) by { assert d.history[..1] == [5]; }
    hide FaithfulDec;
    StopsAgain(net, gp, d, 0, maxNew);
    var c1 := Next(net, gp, d, 0);
    FaithfulWhen(net, gp, d, 0);
    StopsAgain(net, gp, c1.d, 1, maxNew);
    var c2 := Next(net, gp, c1.d, 1);
    FaithfulWhen(net, gp, c1.d, 1);
    GoesOn(net, gp, c2.d, 2, maxNew);
    FaithfulWhen(net, gp, c2.d, 2);
  }

  /** A call of the request above that samples the stop id. */
  lemma StopsAgain(net: Net, gp: GenParams, d: Dec, emitted: nat, maxNew: int)
    requires Simple(gp, maxNew) && emitted + 2 < maxNew && forall id :: gp.isStop(id) <==> id == 7
    requires forall h, history, rng: nat, allow :: gp.sample(h, history, rng, allow).token == if |history| <= 2 then 7 else 8
    requires |d.history| <= 2
    ensures var c := Next(net, gp, d, emitted);
            c.ok && c.done && c.emitted == emitted + 1 && c.d.history == d.history + [7] && c.d.kv == d.kv
  {
    NextParts(net, gp, d, emitted);
  }

  /** The call after it, which feeds 8 where 7 waits. */
  lemma GoesOn(net: Net, gp: GenParams, d: Dec, emitted: nat, maxNew: int)
    requires Toy(net, -1) && Simple(gp, maxNew) && emitted + 1 < maxNew && forall id :: gp.isStop(id) <==> id == 7
    requires forall h, history, rng: nat, allow :: gp.sample(h, history, rng, allow).token == if |history| <= 2 then 7 else 8
    requires d.history == [5, 7, 7] && d.kv.pos == 1 && |d.kv.rows| == 1
    ensures var c := Next(net, gp, d, emitted);
            c.ok && !c.done && c.token == 8 && Dsv4Net.Step(net, d.kv, 8) != Dsv4Net.Step(net, d.kv, d.history[1])
  {
    NextParts(net, gp, d, emitted);
    ToyStep(net, -1, d.kv, 8);
    ToyStep(net, -1, d.kv, 7);
    assert [8.0][0] != [7.0][0];
  }

  // ---------------------------------------------------------------------------------------------
  // A request that fails inside a window
  // ---------------------------------------------------------------------------------------------

  /**
   A slot that holds the prompt [5] and the unfed stop id 7 fails at the second token of the window [8, 9].
   It still counts as holding [5, 7], and its position is now 2: a request for [5, 7] takes both from it,
   which are not there.
   */
  method FailedWindowIsReused(gp0: GenParams) returns (net: Net, s: Slot, began: Status, ended: Status, failed: Status)
    ensures began == ended == Ok && failed == IoError && Cold(net, [5, 7]).ok
    ensures s.have && s.history == [5, 7] && s.pos == 2 && s.streams == [9.0]
    ensures ReuseLength(s, [5, 7], 2) == 2 && !TakesRight(net, s, [5, 7], 2) && !Reusable(net, s)
  {
    net := ToyNet(9);
    var gp := new GenParams(5, 1, -1, 2, 0, false, false, false, (id: int) => "", (t: string) => false,
                            (id: int) => id == 7, (ts: seq<string>) => [],
                            (h: Vec, history: seq<int>, rng: nat, allow: Option<seq<bool>>) => Sampled(7, rng, 0.0));
    var e := new Engine();
    s := new Slot(gp0);
    began, ended := ServeFive(e, net, gp, s);
    failed := FailAfterFive(e, net, gp, s);
  }

  ghost predicate AlwaysStops(gp: GenParams) {
    && Simple(gp, 5) && gp.prefixReuse == 2 && gp.isStop(7)
    && forall h, history, rng: nat, allow :: gp.sample(h, history, rng, allow).token == 7
  }

  /** Without checkpoints, in windows of two tokens. */
  const TOY_CONFIG := CkptConfig(false, false, 1, 1, 2, 1)

  method ServeFive(e: Engine, net: Net, gp: GenParams, s: Slot) returns (began: Status, ended: Status)
    requires Toy(net, 9) && Shaped(net, 1) && AlwaysStops(gp) && e.ckpts == [] && Reusable(net, s)
    modifies e, s
    ensures began == ended == Ok && AllSound(net, e.ckpts)
    ensures Reusable(net, s) && s.have && s.history == [5, 7] && s.pos == 1 && Cold(net, [5]) == Fed(true, s.State())
  {
    hide Cold, Shaped, Toy, PrefillStop, FailedFrom, Slot.State;
    ToyPrompt(net, 9, gp, 5);
    var reuse, token, done;
    began, reuse := BeginGenerate(e, net, TOY_CONFIG, s, [5], gp, [], 16);
    SlotParts(s);
    s.StateParts();
    StoppedCall(net, gp, SlotDec(s));
    FreshHolds(net, s);
    ended, token, done := NextToken(net, s);
    SlotParts(s);
    s.StateParts();
  }

  method FailAfterFive(e: Engine, net: Net, gp: GenParams, s: Slot) returns (failed: Status)
    requires Toy(net, 9) && Shaped(net, 1) && AlwaysStops(gp) && AllSound(net, e.ckpts) && Reusable(net, s)
    requires s.have && s.history == [5, 7] && s.pos == 1 && Cold(net, [5]) == Fed(true, s.State())
    modifies e, s
    ensures failed == IoError && Cold(net, [5, 7]).ok
    ensures s.have && s.history == [5, 7] && s.pos == 2 && s.streams == [9.0]
    ensures ReuseLength(s, [5, 7], 2) == 2 && !TakesRight(net, s, [5, 7], 2) && !Reusable(net, s)
  {
    hide *;
    s.StateParts();
    ColdSize(net, s.State());
    ToyFailure(net, s.State());
    ColdFails(net, s.State());
    OwnLength(s, gp);
    ValidToyConfig();
    NoFiles(net);
    var reuse;
    failed, reuse := BeginGenerate(e, net, TOY_CONFIG, s, [5, 8, 9], gp, [], 16);
    assert [5, 8, 9][1..] == [8, 9];
    KeptHistory(net, s, [5, 8, 9], 1, [5, 7]);
    NotTheCold(net, s);
  }

  lemma ColdSize(net: Net, st: KvState)
    requires Toy(net, 9) && Cold(net, [5]) == Fed(true, st)
    ensures |st.rows| == 1
  {
    hide Cold;
    ColdPrefix(net, [5], 1);
    assert [5][..1] == [5];
  }

  lemma OwnLength(s: Slot, gp: GenParams)
    requires s.have && s.history == [5, 7] && s.pos == 1 && AlwaysStops(gp)
    ensures ReuseLength(s, [5, 8, 9], gp.prefixReuse) == 1
  {
    SharedFive();
  }

  lemma ValidToyConfig()
    ensures ValidConfig(TOY_CONFIG) && !TOY_CONFIG.enabled && TOY_CONFIG.chunk == 2 && TOY_CONFIG.width == 1
    ensures forall c, loaded, disk, prompt, own: nat, reuse: nat ::
              TakesLongest(TOY_CONFIG, c, loaded, disk, prompt, own, reuse) ==> reuse == own
  {}

  lemma NoFiles(net: Net)
    ensures var disk: seq<PrefixCkpt> := []; forall i :: 0 <= i < |disk| && Insertable(disk[i]) ==> Sound(net, disk[i])
  {}

  lemma StoppedCall(net: Net, gp: GenParams, d: Dec)
    requires AlwaysStops(gp)
    ensures var c := Next(net, gp, d, 0); c.ok && c.done && c.d.history == d.history + [7] && c.d.kv == d.kv
  {
    NextParts(net, gp, d, 0);
  }

  lemma SharedFive()
    ensures CommonPrefix([5, 7], [5, 8, 9]) == 1 && CommonPrefix([5, 7], [5, 7]) == 2
  {
    assert [5, 7][1..] == [7] && [5, 8, 9][1..] == [8, 9];
    assert [7][1..] == [];
  }

  /** Where the window stops. */
  lemma ToyFailure(net: Net, st: KvState)
    requires Toy(net, 9) && |st.rows| == 1 && st.pos == 1
    ensures PrefillStop(net, st, [8, 9], 2) == Stop(2, [9.0]) && !Feed(net, st, [8, 9]).ok
  {
    ToyStep(net, 9, st, 8);
    var f := Step(net, st, 8);
    ToyStep(net, 9, f.s, 9);
    assert [8, 9][1..] == [9] && [8, 9][..2] == [8, 9];
    FeedOne(net, f.s, 9);
    ToyWindow(net, st.rows[0]);
    assert Embedded(net, [8, 9]) == [[8.0], [9.0]];
    hide Layers, Layer, LayerPass, PassStop;
  }

  lemma ToyWindow(net: Net, rows: seq<Row>)
    requires Toy(net, 9)
    ensures !LayerPass(net, 0, rows, [[8.0], [9.0]]).ok && PassStop(net, 0, rows, [[8.0], [9.0]]) == Stop(1, [9.0])
  {
    var xs := [[8.0], [9.0]];
    assert xs[1..] == [[9.0]];
    ToyLayer(net, rows, 8.0);
    var rows' := rows + [Layer(net, 0, rows, [8.0]).row];
    ToyLayer(net, rows', 9.0);
    hide Layer;
    assert !LayerPass(net, 0, rows', [[9.0]]).ok && PassStop(net, 0, rows', [[9.0]]) == Stop(0, [9.0]);
  }

  lemma ToyLayer(net: Net, rows: seq<Row>, x: real)
    requires Toy(net, 9)
    ensures var o := Layer(net, 0, rows, [x]); o.ok == (x != 9.0) && o.st == [x]
  {
    assert [x][0] == x && [9.0][0] == 9.0;
  }

  lemma ColdFails(net: Net, st: KvState)
    requires Cold(net, [5]) == Fed(true, st) && !Feed(net, st, [8, 9]).ok
    ensures !Cold(net, [5, 8, 9]).ok
  {
    assert [5, 8, 9] == [5] + [8, 9];
    FeedAppend(net, Empty(net), [5], [8, 9]);
  }

  lemma KeptHistory(net: Net, s: Slot, ids: seq<int>, own: nat, history: seq<int>)
    requires FailedFrom(net, s, ids, own, true, history, own) && own > 0
    ensures s.have && s.history == history && |s.kv| <= net.layers
  {}

  lemma NotTheCold(net: Net, s: Slot)
    requires Toy(net, 9) && s.have && s.history == [5, 7] && s.pos == 2 && s.streams == [9.0] && |s.kv| <= net.layers
    ensures Cold(net, [5, 7]).ok && ReuseLength(s, [5, 7], 2) == 2
    ensures !TakesRight(net, s, [5, 7], 2) && !Reusable(net, s)
  {
    SharedFive();
    assert Empty(net).rows == [[]];
    ToyStep(net, 9, Empty(net), 5);
    var f := Step(net, Empty(net), 5);
    ToyStep(net, 9, f.s, 7);
    assert [5, 7][1..] == [7] && [5, 7][..2] == [5, 7];
    FeedOne(net, f.s, 7);
    assert Cold(net, [5, 7]).s.streams == [7.0] && [7.0][0] != [9.0][0];
    TakesItsOwnOrNot(net, s);
  }

  lemma TakesItsOwnOrNot(net: Net, s: Slot)
    requires ReuseLength(s, [5, 7], 2) == 2 && |s.kv| <= net.layers && [5, 7][..2] == [5, 7]
    requires Cold(net, [5, 7]).s.streams != s.streams
    ensures !TakesRight(net, s, [5, 7], 2) && !Reusable(net, s)
  {
    hide Cold;
    ReusableWhen(net, s);
  }
}
