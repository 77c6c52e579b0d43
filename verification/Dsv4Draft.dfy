/**
 Speculative drafting: the proposals, the part of a draft that is accepted, and generation with
 drafting as a pure function. It is proved equal to plain generation exactly where it is.
 */
module Dsv4Draft {
  import opened Dsv4Net
  import opened Dsv4Slot
  import opened Dsv4Decode

  datatype DraftMode = Bigram | Markov | Forward

  /** A proposal of the forward draft head; doubt is a finite negative confidence. */
  datatype Proposal = Proposal(token: int, hidden: Vec, doubt: bool)

  class Drafter {
    const depth: nat
    const mode: DraftMode
    const hidden: nat
    const markovNext: int -> int
    const forwardStep: (Vec, int) -> Proposal

    constructor (depth0: nat, mode0: DraftMode, hidden0: nat, markov: int -> int, forward: (Vec, int) -> Proposal)
      ensures depth == depth0 && mode == mode0 && hidden == hidden0 && markovNext == markov && forwardStep == forward
    {
      depth, mode, hidden, markovNext, forwardStep := depth0, mode0, hidden0, markov, forward;
    }
  }

  // ---------------------------------------------------------------------------------------------
  // Proposals
  // ---------------------------------------------------------------------------------------------

  /** How often b directly follows a among the first n tokens. */
  function Follows(h: seq<int>, a: int, b: int, n: nat): (k: nat)
    requires n <= |h|
  {
    if n <= 1 then 0
    else Follows(h, a, b, n - 1) + (if h[n - 2] == a && h[n - 1] == b then 1 else 0)
  }

  /** h[i] follows an occurrence of a. */
  predicate Successor(h: seq<int>, a: int, i: int) {
    1 <= i < |h| && h[i - 1] == a
  }

  lemma {:induction false} FollowsPositive(h: seq<int>, a: int, i: nat, n: nat)
    requires i < n <= |h| && Successor(h, a, i)
    ensures Follows(h, a, h[i], n) > 0
    decreases n
  {
    if i < n - 1 {
      FollowsPositive(h, a, i, n - 1);
    }
  }

  lemma {:induction false} FollowsOccurs(h: seq<int>, a: int, b: int, n: nat)
    requires n <= |h| && Follows(h, a, b, n) > 0
    ensures exists i :: Successor(h, a, i) && i < n && h[i] == b
    decreases n
  {
    if h[n - 2] == a && h[n - 1] == b {
      assert Successor(h, a, n - 1);
    } else {
      FollowsOccurs(h, a, b, n - 1);
    }
  }

  /** b stands at i, right behind a. */
  predicate Behind(h: seq<int>, a: int, b: int, i: int) {
    1 <= i < |h| && h[i - 1] == a && h[i] == b
  }

  /** It counts the places where b stands right behind a. */
  lemma {:induction false} FollowsCounts(h: seq<int>, a: int, b: int, n: nat)
    requires n <= |h|
    ensures Follows(h, a, b, n) == |set i | 0 <= i < n && Behind(h, a, b, i)|
    decreases n
  {
    var s := set i | 0 <= i < n && Behind(h, a, b, i);
    if n <= 1 {
      assert s == {};
    } else {
      FollowsCounts(h, a, b, n - 1);
      var r := set i | 0 <= i < n - 1 && Behind(h, a, b, i);
      assert s == if Behind(h, a, b, n - 1) then r + {n - 1} else r;
    }
  }

  lemma NoFollowers(h: seq<int>, a: int)
    ensures |h| < 2 ==> forall b :: Follows(h, a, b, |h|) == 0
  {}

  /** The best successor of prev among the first n tokens, and how often it follows in all of h. */
  datatype Best = Best(token: int, count: nat)

  function BigramScan(h: seq<int>, prev: int, n: nat): Best
    requires n <= |h|
  {
    if n <= 1 then Best(-1, 0)
    else
      var b := BigramScan(h, prev, n - 1);
      var k := Follows(h, prev, h[n - 1], |h|);
      if h[n - 2] == prev && k > b.count then Best(h[n - 1], k) else b
  }

  /** The bigram proposal; of equally frequent successors the one that occurs first. */
  function Bigram(h: seq<int>, prev: int): int {
    if prev < 0 || |h| < 2 then -1 else BigramScan(h, prev, |h|).token
  }

  /** At i stands the best successor of a among the first n tokens: none is more frequent, and all before it are less. */
  predicate BestAt(h: seq<int>, a: int, n: nat, i: int) {
    && 0 <= i < n <= |h| && Successor(h, a, i)
    && forall j {:trigger Successor(h, a, j)} :: 0 <= j < n && Successor(h, a, j) ==>
         Follows(h, a, h[j], |h|) <= Follows(h, a, h[i], |h|) &&
         (j < i ==> Follows(h, a, h[j], |h|) < Follows(h, a, h[i], |h|))
  }

  /** The scan's result stands at a best place, and is how often its token follows. */
  ghost predicate IsBest(h: seq<int>, a: int, n: nat, b: Best) {
    exists i :: BestAt(h, a, n, i) && h[i] == b.token && b.count == Follows(h, a, h[i], |h|)
  }

  predicate NoSuccessor(h: seq<int>, a: int, n: nat) {
    forall j :: 0 <= j < n ==> !Successor(h, a, j)
  }

  lemma {:induction false} ScanIsBest(h: seq<int>, prev: int, n: nat)
    requires n <= |h|
    ensures var b := BigramScan(h, prev, n);
            if b.count == 0 then b.token == -1 && NoSuccessor(h, prev, n) else b.count > 0 && IsBest(h, prev, n, b)
    decreases n
  {
    hide Follows;
    if n > 1 {
      ScanIsBest(h, prev, n - 1);
      ScanOneMore(h, prev, n, BigramScan(h, prev, n - 1));
    }
  }

  lemma ScanOneMore(h: seq<int>, prev: int, n: nat, b: Best)
    requires 1 < n <= |h|
    requires if b.count == 0 then b.token == -1 && NoSuccessor(h, prev, n - 1) else IsBest(h, prev, n - 1, b)
    ensures var k := Follows(h, prev, h[n - 1], |h|);
            var b' := if h[n - 2] == prev && k > b.count then Best(h[n - 1], k) else b;
            if b'.count == 0 then b'.token == -1 && NoSuccessor(h, prev, n) else IsBest(h, prev, n, b')
  {
    hide Follows;
    var k := Follows(h, prev, h[n - 1], |h|);
    if h[n - 2] == prev {
      FollowsPositive(h, prev, n - 1, |h|);
    }
    if h[n - 2] == prev && k > b.count {
      NewBest(h, prev, n, b);
    } else if b.count > 0 {
      OldBest(h, prev, n, b);
    }
  }

  lemma NewBest(h: seq<int>, prev: int, n: nat, b: Best)
    requires 1 < n <= |h| && h[n - 2] == prev && Follows(h, prev, h[n - 1], |h|) > b.count
    requires if b.count == 0 then NoSuccessor(h, prev, n - 1) else IsBest(h, prev, n - 1, b)
    ensures BestAt(h, prev, n, n - 1)
  {
    hide Follows;
  }

  lemma OldBest(h: seq<int>, prev: int, n: nat, b: Best)
    requires 1 < n <= |h| && IsBest(h, prev, n - 1, b)
    requires h[n - 2] == prev ==> Follows(h, prev, h[n - 1], |h|) <= b.count
    ensures IsBest(h, prev, n, b)
  {
    hide Follows;
    var i :| BestAt(h, prev, n - 1, i) && h[i] == b.token && b.count == Follows(h, prev, h[i], |h|);
    BestKept(h, prev, n, i);
  }

  lemma BestKept(h: seq<int>, prev: int, n: nat, i: int)
    requires 1 < n <= |h| && BestAt(h, prev, n - 1, i)
    requires h[n - 2] == prev ==> Follows(h, prev, h[n - 1], |h|) <= Follows(h, prev, h[i], |h|)
    ensures BestAt(h, prev, n, i)
  {
    hide Follows, Successor;
    assert Successor(h, prev, n - 1) ==> h[n - 2] == prev by { LastSuccessor(h, prev, n); }
    forall j | 0 <= j < n && Successor(h, prev, j)
      ensures Follows(h, prev, h[j], |h|) <= Follows(h, prev, h[i], |h|)
      ensures j < i ==> Follows(h, prev, h[j], |h|) < Follows(h, prev, h[i], |h|)
    {
      assert j < n - 1 || j == n - 1;
    }
  }

  lemma LastSuccessor(h: seq<int>, prev: int, n: nat)
    requires 1 < n <= |h|
    ensures Successor(h, prev, n - 1) <==> h[n - 2] == prev
  {}

  lemma ScanStep(h: seq<int>, prev: int, i: nat)
    requires i < |h| || i == 0
    ensures |h| > 0 ==> BigramScan(h, prev, 1) == Best(-1, 0)
    ensures 1 <= i < |h| ==>
              var b, k := BigramScan(h, prev, i), Follows(h, prev, h[i], |h|);
              BigramScan(h, prev, i + 1) == if h[i - 1] == prev && k > b.count then Best(h[i], k) else b
  {
    hide Follows;
  }

  method CountFollows(history: seq<int>, prev: int, cand: int) returns (n: nat)
    ensures n == Follows(history, prev, cand, |history|)
  {
    n := 0;
    var j := 1;
    while j < |history|
      invariant 1 <= j && (j <= |history| || |history| == 0) && n == Follows(history, prev, cand, if j <= |history| then j else 0)
    {
      if history[j - 1] == prev && history[j] == cand {
        n := n + 1;
      }
      j := j + 1;
    }
  }

  /** The most frequent successor of prev in the history; -1 when prev has none. */
  method BigramNext(history: seq<int>, prev: int) returns (best: int)
    ensures best == Bigram(history, prev)
    ensures prev < 0 || (forall i :: !Successor(history, prev, i)) ==> best == -1
    ensures prev >= 0 && (exists i :: Successor(history, prev, i)) ==> Follows(history, prev, best, |history|) > 0
    ensures prev >= 0 ==> forall b :: Follows(history, prev, b, |history|) <= Follows(history, prev, best, |history|)
  {
    hide Follows, BigramScan;
    ScanStep(history, prev, 0);
    best := -1;
    if prev < 0 || |history| < 2 {
      NoFollowers(history, prev);
      return;
    }
    var bestN := 0;
    var i := 1;
    while i < |history|
      invariant 1 <= i <= |history| && Best(best, bestN) == BigramScan(history, prev, i)
      invariant bestN == 0 ==> best == -1 && forall k :: Successor(history, prev, k) ==> k >= i
      invariant bestN > 0 ==> bestN == Follows(history, prev, best, |history|)
      invariant forall k :: Successor(history, prev, k) && k < i ==> Follows(history, prev, history[k], |history|) <= bestN
    {
      ScanStep(history, prev, i);
      if history[i - 1] == prev {
        var cand := history[i];
        assert Successor(history, prev, i);
        var n := CountFollows(history, prev, cand);
        FollowsPositive(history, prev, i, |history|);
        if n > bestN {
          bestN, best := n, cand;
        }
      }
      i := i + 1;
    }
    forall b
      ensures Follows(history, prev, b, |history|) <= bestN
    {
      if Follows(history, prev, b, |history|) > 0 {
        FollowsOccurs(history, prev, b, |history|);
      }
    }
    if bestN > 0 {
      FollowsOccurs(history, prev, best, |history|);
    }
  }

  // ---------------------------------------------------------------------------------------------
  // Drafts
  // ---------------------------------------------------------------------------------------------

  /** The drafter's next token after prev; h is the draft head's hidden state. */
  function Suggest(dr: Drafter, history: seq<int>, useHidden: bool, h: Vec, prev: int): Proposal {
    if useHidden then dr.forwardStep(h, prev)
    else Proposal(if dr.mode == Markov then dr.markovNext(prev) else Bigram(history, prev), h, false)
  }

  /** The chain of at most n proposals, up to the first refused or doubtful one. */
  function Chain(dr: Drafter, history: seq<int>, useHidden: bool, h: Vec, prev: int, n: nat): (draft: seq<int>)
    ensures |draft| <= n
    decreases n
  {
    if n == 0 then []
    else
      var p := Suggest(dr, history, useHidden, h, prev);
      if p.token < 0 || p.doubt then []
      else [p.token] + Chain(dr, history, useHidden, p.hidden, p.token, n - 1)
  }

  function Shorter(a: nat, b: nat): nat {
    if a < b then a else b
  }

  lemma ShorterIs(a: nat, b: nat)
    ensures Shorter(a, b) <= a && Shorter(a, b) <= b && (Shorter(a, b) == a || Shorter(a, b) == b)
  {}

  function Last(history: seq<int>): int {
    if history == [] then 0 else history[|history| - 1]
  }

  predicate UsesHidden(dr: Drafter, lastH: Vec) {
    dr.mode == Forward && |lastH| == dr.hidden
  }

  /** What is drafted after a history, with the slot's pooled hidden state and a token budget. */
  function Draft(dr: Drafter, history: seq<int>, lastH: Vec, budget: nat): (draft: seq<int>)
    ensures |draft| <= dr.depth && |draft| <= budget
  {
    if dr.depth == 0 || history == [] then []
    else
      Chain(dr, history, UsesHidden(dr, lastH), if UsesHidden(dr, lastH) then lastH else [], Last(history),
            Shorter(dr.depth, budget))
  }

  /** x is what the drafter puts after prev: the forward head's token, the Markov one, or the best bigram. */
  ghost predicate Proposes(dr: Drafter, history: seq<int>, lastH: Vec, h: Vec, prev: int, x: int) {
    if dr.mode == Forward && |lastH| == dr.hidden then x == dr.forwardStep(h, prev).token && !dr.forwardStep(h, prev).doubt
    else if dr.mode == Markov then x == dr.markovNext(prev)
    else prev >= 0 && exists i :: BestAt(history, prev, |history|, i) && x == history[i]
  }

  /** Nothing more is proposed after prev. */
  ghost predicate Refuses(dr: Drafter, history: seq<int>, lastH: Vec, h: Vec, prev: int) {
    forall x :: x >= 0 ==> !Proposes(dr, history, lastH, h, prev, x)
  }

  /** Token i of the draft is proposed after p, and the forward head goes on from its own state. */
  ghost predicate Link(dr: Drafter, history: seq<int>, lastH: Vec, draft: seq<int>, hs: seq<Vec>, i: nat, p: int)
    requires i < |draft| && |hs| == |draft| + 1
  {
    && draft[i] >= 0 && Proposes(dr, history, lastH, hs[i], p, draft[i])
    && (dr.mode == Forward && |lastH| == dr.hidden ==> hs[i + 1] == dr.forwardStep(hs[i], p).hidden)
  }

  /** The token before place i of a draft that starts after prev. */
  function Before(prev: int, draft: seq<int>, i: nat): int
    requires i <= |draft|
  {
    if i == 0 then prev else draft[i - 1]
  }

  ghost predicate Linked(dr: Drafter, history: seq<int>, lastH: Vec, prev: int, draft: seq<int>, hs: seq<Vec>) {
    && |hs| == |draft| + 1
    && forall i :: 0 <= i < |draft| ==> Link(dr, history, lastH, draft, hs, i, Before(prev, draft, i))
  }

  lemma LinkMore(dr: Drafter, history: seq<int>, lastH: Vec, prev: int, h: Vec, x: int, draft: seq<int>, hs: seq<Vec>)
    requires Linked(dr, history, lastH, x, draft, hs) && x >= 0 && Proposes(dr, history, lastH, h, prev, x)
    requires dr.mode == Forward && |lastH| == dr.hidden ==> hs[0] == dr.forwardStep(h, prev).hidden
    ensures Linked(dr, history, lastH, prev, [x] + draft, [h] + hs)
  {
    hide Proposes;
    var draft', hs' := [x] + draft, [h] + hs;
    forall i | 0 <= i < |draft'|
      ensures Link(dr, history, lastH, draft', hs', i, Before(prev, draft', i))
    {
      if i > 0 {
        assert Link(dr, history, lastH, draft, hs, i - 1, Before(x, draft, i - 1));
        assert Before(prev, draft', i) == Before(x, draft, i - 1);
        assert hs'[i] == hs[i - 1] && hs'[i + 1] == hs[i] && draft'[i] == draft[i - 1];
      }
    }
  }

  lemma {:induction false} ChainLinked(dr: Drafter, history: seq<int>, lastH: Vec, useHidden: bool, h: Vec, prev: int, n: nat)
    returns (hs: seq<Vec>)
    requires history != [] && useHidden == (dr.mode == Forward && |lastH| == dr.hidden)
    ensures var draft := Chain(dr, history, useHidden, h, prev, n);
            && Linked(dr, history, lastH, prev, draft, hs) && hs[0] == h
            && (|draft| < n ==> Refuses(dr, history, lastH, hs[|draft|], Before(prev, draft, |draft|)))
    decreases n
  {
    hide Proposes, Link, Suggest;
    hs := [h];
    if n > 0 {
      var p := Suggest(dr, history, useHidden, h, prev);
      SuggestProposes(dr, history, lastH, useHidden, h, prev);
      if p.token >= 0 && !p.doubt {
        var later := ChainLinked(dr, history, lastH, useHidden, p.hidden, p.token, n - 1);
        var rest := Chain(dr, history, useHidden, p.hidden, p.token, n - 1);
        hs := [h] + later;
        LinkMore(dr, history, lastH, prev, h, p.token, rest, later);
        assert hs[|rest| + 1] == later[|rest|];
      }
    }
  }

  /** A suggestion is a proposal, unless it is refused; then there is none. */
  lemma SuggestProposes(dr: Drafter, history: seq<int>, lastH: Vec, useHidden: bool, h: Vec, prev: int)
    requires history != [] && useHidden == (dr.mode == Forward && |lastH| == dr.hidden)
    ensures var p := Suggest(dr, history, useHidden, h, prev);
            && (useHidden ==> p == dr.forwardStep(h, prev))
            && (if p.token < 0 || p.doubt then Refuses(dr, history, lastH, h, prev)
                else Proposes(dr, history, lastH, h, prev, p.token))
  {
    if !useHidden && dr.mode != Markov {
      BigramIsBest(history, prev);
    }
  }

  /** The bigram proposal is the best successor; there is none, or it is negative, when the proposal is. */
  lemma BigramIsBest(history: seq<int>, prev: int)
    ensures var b := Bigram(history, prev);
            && (b >= 0 ==> prev >= 0 && exists i :: BestAt(history, prev, |history|, i) && b == history[i])
            && (b < 0 ==> prev < 0 || forall i :: BestAt(history, prev, |history|, i) ==> history[i] < 0)
  {
    hide Follows;
    if prev >= 0 {
      ScanIsBest(history, prev, |history|);
      forall i, j | BestAt(history, prev, |history|, i) && BestAt(history, prev, |history|, j)
        ensures i == j
      {
        hide BigramScan;
      }
    }
  }

  /**
   A draft is a chain of proposals from the last token of the history on. It ends at the depth, at the
   budget, or where nothing more is proposed.
   */
  lemma DraftLinked(dr: Drafter, history: seq<int>, lastH: Vec, budget: nat) returns (hs: seq<Vec>)
    requires history != []
    ensures var draft, last := Draft(dr, history, lastH, budget), history[|history| - 1];
            && Linked(dr, history, lastH, last, draft, hs) && |draft| <= dr.depth && |draft| <= budget
            && (dr.mode == Forward && |lastH| == dr.hidden ==> hs[0] == lastH)
            && (|draft| < dr.depth && |draft| < budget ==>
                  Refuses(dr, history, lastH, hs[|draft|], Before(last, draft, |draft|)))
  {
    hide Link, Chain, Refuses;
    if dr.depth == 0 {
      hs := [lastH];
    } else {
      var useHidden := UsesHidden(dr, lastH);
      hs := ChainLinked(dr, history, lastH, useHidden, if useHidden then lastH else [], Last(history), Shorter(dr.depth, budget));
    }
  }

  lemma ChainStep(dr: Drafter, history: seq<int>, useHidden: bool, h: Vec, prev: int, n: nat, done: seq<int>)
    ensures var p, all := Suggest(dr, history, useHidden, h, prev), done + Chain(dr, history, useHidden, h, prev, n);
            if n == 0 || p.token < 0 || p.doubt then all == done
            else all == (done + [p.token]) + Chain(dr, history, useHidden, p.hidden, p.token, n - 1)
  {
    hide Suggest;
  }

  /** The drafter's next token after prev, with the hidden state to go on with. */
  method SuggestOne(dr: Drafter, history: seq<int>, useHidden: bool, dh: Vec, prev: int) returns (p: Proposal)
    ensures p == Suggest(dr, history, useHidden, dh, prev)
  {
    if useHidden {
      p := dr.forwardStep(dh, prev);
    } else if dr.mode == Markov {
      p := Proposal(dr.markovNext(prev), dh, false);
    } else {
      var d := BigramNext(history, prev);
      p := Proposal(d, dh, false);
    }
  }

  method Propose(dr: Drafter, history: seq<int>, lastH: Vec, budget: nat) returns (draft: seq<int>)
    ensures draft == Draft(dr, history, lastH, budget)
    ensures |draft| <= dr.depth && |draft| <= budget
  {
    hide Suggest, Chain, Shorter;
    draft := [];
    ShorterIs(dr.depth, budget);
    if dr.depth == 0 || history == [] {
      return;
    }
    var prev := history[|history| - 1];
    var useHidden := dr.mode == Forward && |lastH| == dr.hidden;
    var dh := if useHidden then lastH else [];
    var i := 0;
    ghost var n := Shorter(dr.depth, budget);
    ghost var all := Chain(dr, history, useHidden, dh, prev, n);
    while i < dr.depth && i < budget
      invariant 0 <= i <= n && |draft| == i
      invariant all == draft + Chain(dr, history, useHidden, dh, prev, n - i)
    {
      ChainStep(dr, history, useHidden, dh, prev, n - i, draft);
      var p := SuggestOne(dr, history, useHidden, dh, prev);
      if p.token < 0 || p.doubt {
        return;
      }
      draft := draft + [p.token];
      prev, dh := p.token, p.hidden;
      i := i + 1;
    }
    ChainStep(dr, history, useHidden, dh, prev, n - i, draft);
  }

  /**
   How much of a draft the forward head confirms once its first token is known to be right. It repeats
   the very steps that made the draft, so it confirms all of it.
   */
  method VerifyTail(dr: Drafter, h0: Vec, prev0: int, draft: seq<int>, ghost history: seq<int>, ghost n: nat) returns (acc: nat)
    requires draft != []
    ensures 1 <= acc <= |draft|
    ensures draft == Chain(dr, history, true, h0, prev0, n) ==> acc == |draft|
  {
    var h := dr.forwardStep(h0, prev0).hidden;
    var prev := draft[0];
    acc := 1;
    var i := 1;
    ghost var own := draft == Chain(dr, history, true, h0, prev0, n);
    while i < |draft|
      invariant 1 <= i <= |draft| && acc == i
      invariant own ==> i <= n && draft[i..] == Chain(dr, history, true, h, prev, n - i)
    {
      var p := dr.forwardStep(h, prev);
      if p.token != draft[i] || p.doubt {
        return;
      }
      acc := acc + 1;
      h, prev := p.hidden, draft[i];
      i := i + 1;
    }
  }

  // ---------------------------------------------------------------------------------------------
  // Generation with drafting
  // ---------------------------------------------------------------------------------------------

  /** No draft can bring a second token into a request of n tokens: only the forward head confirms drafts at all, and
      one of one token is the sampled one. */
  predicate DraftsPlainly(dr: Drafter, n: int) {
    dr.mode != Forward || dr.depth <= 1 || n <= 1
  }

  /** The tokens one iteration sets out to emit: the whole draft, when the forward head made it and the sampled
      token is its first, and the sampled token otherwise. */
  function TurnBatch(dr: Drafter, history: seq<int>, lastH: Vec, next: int, budget: nat): (batch: seq<int>)
    requires budget > 0
    ensures 1 <= |batch| <= budget && batch[0] == next
    ensures DraftsPlainly(dr, budget) || |lastH| != dr.hidden ==> batch == [next]
  {
    var draft := Draft(dr, history, lastH, budget);
    if UsesHidden(dr, lastH) && draft != [] && next == draft[0] then draft else [next]
  }

  datatype Emitted = Emitted(stop: bool, n: nat, d: Dec)

  /** Emitting tokens up to the first that stops. */
  function EmitAll(gp: GenParams, d: Dec, batch: seq<int>): (e: Emitted)
    ensures e.n <= |batch| && (!e.stop ==> e.n == |batch|) && (batch != [] ==> e.n > 0)
    decreases |batch|
  {
    if batch == [] then Emitted(false, 0, d)
    else
      var d1 := Accept(gp, d, batch[0]);
      var d2 := Decoded(gp, d1, batch[0]);
      if Stops(gp, d1, batch[0]) then Emitted(true, 1, d2)
      else
        var e := EmitAll(gp, d2, batch[1..]);
        Emitted(e.stop, 1 + e.n, e.d)
  }

  datatype TurnOut = TurnOut(ok: bool, batch: seq<int>, stopped: bool, d: Dec)

  /** One iteration of generation with drafting. */
  function DraftIter(net: Net, gp: GenParams, dr: Drafter, d: Dec, budget: nat): (r: TurnOut)
    requires budget > 0
    ensures 1 <= |r.batch| <= budget
  {
    var batch := TurnBatch(dr, d.history, net.pool(d.kv.streams), Sample(net, gp, d).token, budget);
    var e := EmitAll(gp, AfterSample(net, gp, d), batch);
    if e.stop then TurnOut(true, batch[..e.n], true, e.d)
    else
      var f := Feed(net, e.d.kv, batch);
      TurnOut(f.ok, batch, false, Remask(gp, e.d.(kv := f.s)))
  }

  /** Generation of at most n tokens with drafting. */
  function Drafted(net: Net, gp: GenParams, dr: Drafter, d: Dec, n: int): GenOut
    decreases if n > 0 then n else 0
  {
    if n <= 0 then GenOut(true, [], false, d)
    else
      var b := DraftIter(net, gp, dr, d, n);
      if !b.ok || b.stopped then GenOut(b.ok, b.batch, b.stopped, b.d)
      else
        var r := Drafted(net, gp, dr, b.d, n - |b.batch|);
        GenOut(r.ok, b.batch + r.tokens, r.stopped, r.d)
  }

  /** An iteration that emits the sampled token alone is an iteration of plain generation. */
  lemma SingleIsIter(net: Net, gp: GenParams, dr: Drafter, d: Dec, budget: nat)
    requires budget > 0
    requires TurnBatch(dr, d.history, net.pool(d.kv.streams), Sample(net, gp, d).token, budget) == [Sample(net, gp, d).token]
    ensures var i := Iter(net, gp, d);
            DraftIter(net, gp, dr, d, budget) == TurnOut(i.ok, [i.token], i.stopped, i.d)
  {
    hide Dsv4Net.Step, Sample, AfterSample;
    var token := Sample(net, gp, d).token;
    var d1 := AfterSample(net, gp, d);
    assert [token][..1] == [token] && [token][1..] == [];
    assert EmitAll(gp, Decoded(gp, Accept(gp, d1, token), token), []).n == 0;
    FeedOne(net, Decoded(gp, Accept(gp, d1, token), token).kv, token);
  }

  /** Bigram and Markov drafts of any depth, forward drafts of depth one, and drafts for one token never change anything. */
  lemma {:induction false} DraftedIsPlain(net: Net, gp: GenParams, dr: Drafter, d: Dec, n: int)
    requires DraftsPlainly(dr, n)
    ensures Drafted(net, gp, dr, d, n) == Plain(net, gp, d, n)
    decreases if n > 0 then n else 0
  {
    hide DraftIter, Iter, Sample, TurnBatch;
    if n > 0 {
      SingleIsIter(net, gp, dr, d, n);
      DraftedIsPlain(net, gp, dr, Iter(net, gp, d).d, n - 1);
    }
  }

  lemma {:induction false} EmitHistory(gp: GenParams, d: Dec, batch: seq<int>)
    ensures var e := EmitAll(gp, d, batch); e.d.history == d.history + batch[..e.n] && e.d.kv == d.kv
    decreases |batch|
  {
    if batch != [] {
      var d1 := Accept(gp, d, batch[0]);
      if !Stops(gp, d1, batch[0]) {
        var d2, rest := Decoded(gp, d1, batch[0]), batch[1..];
        EmitHistory(gp, d2, rest);
        var n := EmitAll(gp, d2, rest).n;
        assert [batch[0]] + rest[..n] == batch[..1 + n];
        assert d.history + [batch[0]] + rest[..n] == d.history + ([batch[0]] + rest[..n]);
      }
    }
  }

  lemma TurnHistory(net: Net, gp: GenParams, dr: Drafter, d: Dec, budget: nat)
    requires budget > 0
    ensures var b := DraftIter(net, gp, dr, d, budget); b.d.history == d.history + b.batch
  {
    hide TurnBatch, Feed, Sample;
    var batch := TurnBatch(dr, d.history, net.pool(d.kv.streams), Sample(net, gp, d).token, budget);
    EmitHistory(gp, AfterSample(net, gp, d), batch);
    assert batch[..|batch|] == batch;
  }

  /** With drafting of any kind at most n tokens come out, and they are what the history grows by. */
  lemma {:induction false} DraftedTokens(net: Net, gp: GenParams, dr: Drafter, d: Dec, n: int)
    ensures var r := Drafted(net, gp, dr, d, n);
            |r.tokens| <= (if n > 0 then n else 0) && r.d.history == d.history + r.tokens
    decreases if n > 0 then n else 0
  {
    hide DraftIter, Remask;
    if n > 0 {
      var b := DraftIter(net, gp, dr, d, n);
      TurnHistory(net, gp, dr, d, n);
      if b.ok && !b.stopped {
        DraftedTokens(net, gp, dr, b.d, n - |b.batch|);
      }
    }
  }
}
