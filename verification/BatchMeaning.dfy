/**
 What the answer to a prompt means, in terms of the kernels alone: which hidden states each token comes
 from, which rows they attend over, and which token ends the answer.
 */
module BatchMeaning {
  import opened PagedKv
  import opened Batching

  /** The K rows of a layer after n decode steps: the prompt's, and one for each step. */
  function Keys(m: Llama, prompt: seq<int>, hs: seq<seq<Vec>>, l: nat, n: nat): seq<Vec>
    requires n <= |hs| && forall i :: 0 <= i < n ==> l < |hs[i]|
  {
    m.promptK(l, prompt) + seq(n, i requires 0 <= i < n => m.kRow(l, hs[i][l], |prompt| + i))
  }

  function Values(m: Llama, prompt: seq<int>, hs: seq<seq<Vec>>, l: nat, n: nat): seq<Vec>
    requires n <= |hs| && forall i :: 0 <= i < n ==> l < |hs[i]|
  {
    m.promptV(l, prompt) + seq(n, i requires 0 <= i < n => m.vRow(l, hs[i][l]))
  }

  predicate Deeply(layers: nat, hs: seq<seq<Vec>>) {
    forall i :: 0 <= i < |hs| ==> |hs[i]| == layers + 1
  }

  /**
   Decode step j: it embeds token j of the answer, and every layer attends over the rows of the prompt, of
   the steps before, and its own.
   */
  ghost predicate Step(layers: nat, m: Llama, prompt: seq<int>, out: seq<int>, hs: seq<seq<Vec>>, j: nat)
    requires Deeply(layers, hs) && j < |hs| && j < |out|
  {
    && hs[j][0] == m.embed(out[j])
    && forall l :: 0 <= l < layers ==>
         hs[j][l + 1] == m.attend(l, hs[j][l], Keys(m, prompt, hs, l, j + 1), Values(m, prompt, hs, l, j + 1))
  }

  ghost predicate Steps(layers: nat, m: Llama, prompt: seq<int>, out: seq<int>, hs: seq<seq<Vec>>) {
    Deeply(layers, hs) && |hs| <= |out| && forall j :: 0 <= j < |hs| ==> Step(layers, m, prompt, out, hs, j)
  }

  /** The token sampled in step j ends the answer: an end token, or no room for another row. */
  predicate Last(c: Limits, prompt: seq<int>, j: nat, token: int) {
    token == 128001 || token == 128009 || |prompt| + j == c.d.maxSeq - 1
  }

  /** What the layers of one decode step do to the rows and to the hidden state. */
  lemma {:induction false} DeepMeaning(d: Dims, m: Llama, rows: Lists, last: int, pos: nat, l: nat) returns (xs: seq<Vec>)
    requires Layered(d, rows) && l <= d.layers
    ensures var r := Deep(d, m, rows, last, pos, l);
            && |xs| == l + 1 && xs[0] == m.embed(last) && r.hidden == xs[l]
            && (forall i :: 0 <= i < l ==>
                  xs[i + 1] == m.attend(i, xs[i], rows.k[i] + [m.kRow(i, xs[i], pos)], rows.v[i] + [m.vRow(i, xs[i])]))
            && (forall i :: 0 <= i < l ==>
                  r.rows.k[i] == rows.k[i] + [m.kRow(i, xs[i], pos)] && r.rows.v[i] == rows.v[i] + [m.vRow(i, xs[i])])
            && (forall i :: l <= i < d.layers ==> r.rows.k[i] == rows.k[i] && r.rows.v[i] == rows.v[i])
  {
    if l == 0 {
      xs := [m.embed(last)];
    } else {
      var before := DeepMeaning(d, m, rows, last, pos, l - 1);
      xs := before + [Deep(d, m, rows, last, pos, l).hidden];
    }
  }

  /** The state of a prompt served alone after the tokens gen, from the steps hs. */
  ghost predicate At(c: Limits, m: Llama, prompt: seq<int>, gen: seq<int>, hs: seq<seq<Vec>>, seat: Seat) {
    && gen != [] && seat.generated == gen && seat.last == gen[|gen| - 1] && seat.len == |prompt| + |hs|
    && |hs| == |gen| - 1 && Steps(c.d.layers, m, prompt, gen, hs) && Layered(c.d, seat.rows)
    && forall l :: 0 <= l < c.d.layers ==>
         seat.rows.k[l] == Keys(m, prompt, hs, l, |hs|) && seat.rows.v[l] == Values(m, prompt, hs, l, |hs|)
  }

  /** Rows and steps do not depend on what comes behind them. */
  lemma KeysKept(m: Llama, prompt: seq<int>, hs: seq<seq<Vec>>, xs: seq<Vec>, l: nat, n: nat)
    requires n <= |hs| && l < |xs| && forall i :: 0 <= i < n ==> l < |hs[i]|
    ensures Keys(m, prompt, hs + [xs], l, n) == Keys(m, prompt, hs, l, n)
    ensures Values(m, prompt, hs + [xs], l, n) == Values(m, prompt, hs, l, n)
  {}

  lemma KeysMore(m: Llama, prompt: seq<int>, hs: seq<seq<Vec>>, xs: seq<Vec>, l: nat)
    requires l < |xs| && forall i :: 0 <= i < |hs| ==> l < |hs[i]|
    ensures Keys(m, prompt, hs + [xs], l, |hs| + 1) == Keys(m, prompt, hs, l, |hs|) + [m.kRow(l, xs[l], |prompt| + |hs|)]
    ensures Values(m, prompt, hs + [xs], l, |hs| + 1) == Values(m, prompt, hs, l, |hs|) + [m.vRow(l, xs[l])]
  {}

  lemma StepsKept(layers: nat, m: Llama, prompt: seq<int>, out: seq<int>, out': seq<int>, hs: seq<seq<Vec>>, xs: seq<Vec>)
    requires Steps(layers, m, prompt, out, hs) && out <= out' && |xs| == layers + 1
    ensures Steps(layers, m, prompt, out', hs) && Deeply(layers, hs + [xs])
    ensures forall j :: 0 <= j < |hs| ==> Step(layers, m, prompt, out', hs + [xs], j)
  {
    hide Keys, Values;
    forall j | 0 <= j < |hs|
      ensures Step(layers, m, prompt, out', hs, j) && Step(layers, m, prompt, out', hs + [xs], j)
    {
      assert Step(layers, m, prompt, out, hs, j);
      var more := hs + [xs];
      forall l | 0 <= l < layers
        ensures more[j][l + 1] ==
                m.attend(l, more[j][l], Keys(m, prompt, more, l, j + 1), Values(m, prompt, more, l, j + 1))
      {
        KeysKept(m, prompt, hs, xs, l, j + 1);
      }
    }
  }

  /** One decode step from such a state. */
  lemma OneStep(c: Limits, m: Llama, prompt: seq<int>, gen: seq<int>, hs: seq<seq<Vec>>, seat: Seat) returns (xs: seq<Vec>)
    requires At(c, m, prompt, gen, hs, seat)
    ensures |xs| == c.d.layers + 1 && Steps(c.d.layers, m, prompt, gen, hs + [xs])
    ensures Decoded(c.d, m, seat).hidden == xs[c.d.layers]
    ensures forall l :: 0 <= l < c.d.layers ==>
              Decoded(c.d, m, seat).rows.k[l] == Keys(m, prompt, hs + [xs], l, |hs| + 1) &&
              Decoded(c.d, m, seat).rows.v[l] == Values(m, prompt, hs + [xs], l, |hs| + 1)
  {
    hide Keys, Values, Deep;
    xs := DeepMeaning(c.d, m, seat.rows, seat.last, seat.len, c.d.layers);
    StepsKept(c.d.layers, m, prompt, gen, gen, hs, xs);
    forall l | 0 <= l < c.d.layers
      ensures Keys(m, prompt, hs + [xs], l, |hs| + 1) == seat.rows.k[l] + [m.kRow(l, xs[l], seat.len)]
      ensures Values(m, prompt, hs + [xs], l, |hs| + 1) == seat.rows.v[l] + [m.vRow(l, xs[l])]
    {
      KeysMore(m, prompt, hs, xs, l);
    }
    assert Step(c.d.layers, m, prompt, gen, hs + [xs], |hs|);
  }

  /** The tokens from place `from` on come from the steps before them, and none of them ends the answer. */
  ghost predicate Picked(c: Limits, m: Llama, prompt: seq<int>, out: seq<int>, hs: seq<seq<Vec>>, from: nat) {
    && Deeply(c.d.layers, hs)
    && forall j :: from <= j < |out| - 1 && j < |hs| ==> PickedBy(c, m, prompt, j, hs[j], out[j + 1])
  }

  /** The token picked from the hidden states xs of step j, which does not end the answer. */
  ghost predicate PickedBy(c: Limits, m: Llama, prompt: seq<int>, j: nat, xs: seq<Vec>, token: int) {
    |xs| == c.d.layers + 1 && token == m.pick(xs[c.d.layers]) && !Last(c, prompt, j, token)
  }

  /** The answer ends at the token limit, or where the next step would end it. */
  ghost predicate Finished(c: Limits, m: Llama, prompt: seq<int>, out: seq<int>, hs: seq<seq<Vec>>) {
    && out != [] && Deeply(c.d.layers, hs)
    && if |out| >= c.maxNew then |hs| == |out| - 1
       else |hs| == |out| && Last(c, prompt, |out| - 1, m.pick(hs[|out| - 1][c.d.layers]))
  }

  lemma {:induction false} AloneMeaning(c: Limits, m: Llama, prompt: seq<int>, gen: seq<int>, hs: seq<seq<Vec>>, seat: Seat)
    returns (all: seq<seq<Vec>>)
    requires At(c, m, prompt, gen, hs, seat)
    ensures var out := Alone(c, m, seat);
            && gen <= out && hs <= all && Steps(c.d.layers, m, prompt, out, all)
            && Picked(c, m, prompt, out, all, |gen| - 1) && Finished(c, m, prompt, out, all)
    decreases c.maxNew - |gen|
  {
    hide Decoded, Steps, Keys, Values, Last, Picked, Finished, Stops, Deeply;
    AtSteps(c, m, prompt, gen, hs, seat);
    NotPicked(c, m, prompt, gen, hs, |gen| - 1);
    if |gen| >= c.maxNew {
      all := hs;
      FinishedAtLimit(c, m, prompt, gen, hs);
    } else {
      var xs := OneStep(c, m, prompt, gen, hs, seat);
      var token := m.pick(xs[c.d.layers]);
      StopsIs(c, m, prompt, gen, hs, seat, token);
      if Stops(c, seat, token) {
        all := hs + [xs];
        StepsDeep(c.d.layers, m, prompt, gen, all);
        NotPicked(c, m, prompt, gen, all, |gen| - 1);
        FinishedByStop(c, m, prompt, gen, all);
      } else {
        var gen', hs' := gen + [token], hs + [xs];
        LongerOut(c.d.layers, m, prompt, gen, gen', hs');
        PushedAt(c, m, prompt, gen, hs, seat, xs);
        all := AloneMeaning(c, m, prompt, gen', hs', Push(c.d, m, seat));
        var out := Alone(c, m, seat);
        assert all[|gen| - 1] == xs && out[|gen|] == token;
        PickedBefore(c, m, prompt, out, all, |gen|);
      }
    }
  }

  lemma AtSteps(c: Limits, m: Llama, prompt: seq<int>, gen: seq<int>, hs: seq<seq<Vec>>, seat: Seat)
    requires At(c, m, prompt, gen, hs, seat)
    ensures gen != [] && seat.generated == gen && |hs| == |gen| - 1
    ensures Steps(c.d.layers, m, prompt, gen, hs) && Deeply(c.d.layers, hs)
  {
    hide Step, Keys, Values;
  }

  lemma StepsDeep(layers: nat, m: Llama, prompt: seq<int>, out: seq<int>, hs: seq<seq<Vec>>)
    requires Steps(layers, m, prompt, out, hs)
    ensures Deeply(layers, hs)
  {
    hide Step;
  }

  lemma NotPicked(c: Limits, m: Llama, prompt: seq<int>, out: seq<int>, hs: seq<seq<Vec>>, from: nat)
    requires Deeply(c.d.layers, hs) && from + 1 == |out|
    ensures Picked(c, m, prompt, out, hs, from)
  {}

  lemma FinishedAtLimit(c: Limits, m: Llama, prompt: seq<int>, out: seq<int>, hs: seq<seq<Vec>>)
    requires out != [] && Deeply(c.d.layers, hs) && |out| >= c.maxNew && |hs| == |out| - 1
    ensures Finished(c, m, prompt, out, hs)
  {}

  lemma FinishedByStop(c: Limits, m: Llama, prompt: seq<int>, out: seq<int>, hs: seq<seq<Vec>>)
    requires out != [] && Deeply(c.d.layers, hs) && |out| < c.maxNew && |hs| == |out|
    requires Last(c, prompt, |out| - 1, m.pick(hs[|out| - 1][c.d.layers]))
    ensures Finished(c, m, prompt, out, hs)
  {}

  lemma StopsIs(c: Limits, m: Llama, prompt: seq<int>, gen: seq<int>, hs: seq<seq<Vec>>, seat: Seat, token: int)
    requires At(c, m, prompt, gen, hs, seat)
    ensures Stops(c, seat, token) <==> Last(c, prompt, |gen| - 1, token)
  {
    hide Steps, Keys, Values;
  }

  /** The state after the step. */
  lemma PushedAt(c: Limits, m: Llama, prompt: seq<int>, gen: seq<int>, hs: seq<seq<Vec>>, seat: Seat, xs: seq<Vec>)
    requires At(c, m, prompt, gen, hs, seat) && |xs| == c.d.layers + 1 && Decoded(c.d, m, seat).hidden == xs[c.d.layers]
    requires Steps(c.d.layers, m, prompt, gen + [m.pick(xs[c.d.layers])], hs + [xs])
    requires forall l :: 0 <= l < c.d.layers ==>
               Decoded(c.d, m, seat).rows.k[l] == Keys(m, prompt, hs + [xs], l, |hs| + 1) &&
               Decoded(c.d, m, seat).rows.v[l] == Values(m, prompt, hs + [xs], l, |hs| + 1)
    ensures At(c, m, prompt, gen + [m.pick(xs[c.d.layers])], hs + [xs], Push(c.d, m, seat))
  {
    hide Steps, Keys, Values, Decoded;
    var next := Push(c.d, m, seat);
    PushIs(c.d, m, seat);
    StepsDeep(c.d.layers, m, prompt, next.generated, hs + [xs]);
    assert |hs + [xs]| == |hs| + 1;
    forall l | 0 <= l < c.d.layers
      ensures next.rows.k[l] == Keys(m, prompt, hs + [xs], l, |hs| + 1)
      ensures next.rows.v[l] == Values(m, prompt, hs + [xs], l, |hs| + 1)
    {
      assert Decoded(c.d, m, seat).rows.k[l] == Keys(m, prompt, hs + [xs], l, |hs| + 1);
    }
  }

  lemma PushIs(d: Dims, m: Llama, seat: Seat)
    requires Layered(d, seat.rows)
    ensures var x, r := Decoded(d, m, seat), Push(d, m, seat);
            && r.rows == x.rows && r.generated == seat.generated + [m.pick(x.hidden)] && r.last == m.pick(x.hidden)
            && r.len == seat.len + 1
  {
    hide Decoded;
  }

  lemma PickedBefore(c: Limits, m: Llama, prompt: seq<int>, out: seq<int>, hs: seq<seq<Vec>>, n: nat)
    requires 0 < n < |out| && n <= |hs| && Picked(c, m, prompt, out, hs, n)
    requires PickedBy(c, m, prompt, n - 1, hs[n - 1], out[n])
    ensures Picked(c, m, prompt, out, hs, n - 1)
  {
    hide PickedBy;
    forall j: nat | n - 1 <= j < |out| - 1 && j < |hs|
      ensures PickedBy(c, m, prompt, j, hs[j], out[j + 1])
    {
      assert j == n - 1 || j >= n;
    }
  }

  lemma LongerOut(layers: nat, m: Llama, prompt: seq<int>, out: seq<int>, out': seq<int>, hs: seq<seq<Vec>>)
    requires Steps(layers, m, prompt, out, hs) && out <= out'
    ensures Steps(layers, m, prompt, out', hs)
  {
    hide Keys, Values;
    forall j | 0 <= j < |hs|
      ensures Step(layers, m, prompt, out', hs, j)
    {
      assert Step(layers, m, prompt, out, hs, j);
    }
  }

  /**
   The answer to a prompt: its first token is the prefill's, every further token is picked from the last
   hidden state of a decode step of the token before it, and it ends at the token limit or where a step
   gives an end token or there is no room for another row.
   */
  lemma AnswerMeaning(c: Limits, m: Llama, prompt: seq<int>) returns (hs: seq<seq<Vec>>)
    ensures var out := Answer(c, m, prompt);
            && out != [] && out[0] == m.firstToken(prompt)
            && Steps(c.d.layers, m, prompt, out, hs) && Picked(c, m, prompt, out, hs, 0) && Finished(c, m, prompt, out, hs)
  {
    var seat := Start(c.d, m, prompt);
    assert At(c, m, prompt, [m.firstToken(prompt)], [], seat);
    hs := AloneMeaning(c, m, prompt, [m.firstToken(prompt)], [], seat);
  }

  // ---------------------------------------------------------------------------------------------
  // Which prompts are answered
  // ---------------------------------------------------------------------------------------------

  /** The accepted prompts are those of the queue that are not too long, in its order. */
  lemma {:induction false} AcceptedMeaning(a: seq<seq<int>>, b: seq<seq<int>>, maxPrompt: nat)
    ensures Accepted(a + b, maxPrompt) == Accepted(a, maxPrompt) + Accepted(b, maxPrompt)
    ensures |a| == 1 ==> Accepted(a, maxPrompt) == if |a[0]| > maxPrompt then [] else a
  {
    if b == [] {
      assert a + b == a;
    } else {
      AcceptedMeaning(a, b[..|b| - 1], maxPrompt);
      assert (a + b)[..|a + b| - 1] == a + b[..|b| - 1];
    }
  }
}
