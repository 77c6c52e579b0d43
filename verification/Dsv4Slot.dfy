/**
 A decode slot of the DeepSeek V4 engine, updated in place.

 The row buffers may be longer than the position, and rows at or beyond it may hold anything;
 `State` is what the slot means. Every method is proved against the pure forward pass, so stale
 rows and the chosen window length cannot influence a result.
 */
module Dsv4Slot {
  import opened Results
  import opened Dsv4Net

  datatype Sampled = Sampled(token: int, rng: nat, logprob: real)

  /** Request parameters together with the callbacks generation consults. */
  class GenParams {
    const maxNew: int
    const seed: nat
    const cacheSlot: int
    const prefixReuse: int
    const prefixBytes: int
    const grammarReady: bool
    const hasText: bool
    const logprobs: bool
    const text: int -> string
    const stopHit: string -> bool
    const isStop: int -> bool
    const mask: seq<string> -> seq<bool>
    const sample: (Vec, seq<int>, nat, Option<seq<bool>>) -> Sampled

    constructor (maxNew0: int, seed0: nat, cacheSlot0: int, prefixReuse0: int, prefixBytes0: int, grammarReady0: bool,
                 hasText0: bool, logprobs0: bool, text0: int -> string, stopHit0: string -> bool,
                 isStop0: int -> bool, mask0: seq<string> -> seq<bool>,
                 sample0: (Vec, seq<int>, nat, Option<seq<bool>>) -> Sampled)
      ensures maxNew == maxNew0 && seed == seed0 && cacheSlot == cacheSlot0 && prefixReuse == prefixReuse0
      ensures prefixBytes == prefixBytes0 && grammarReady == grammarReady0 && hasText == hasText0 && logprobs == logprobs0
      ensures text == text0 && stopHit == stopHit0 && isStop == isStop0 && mask == mask0
      ensures sample == sample0
    {
      maxNew := maxNew0;
      seed := seed0;
      cacheSlot := cacheSlot0;
      prefixReuse := prefixReuse0;
      prefixBytes := prefixBytes0;
      grammarReady := grammarReady0;
      hasText := hasText0;
      logprobs := logprobs0;
      text := text0;
      stopHit := stopHit0;
      isStop := isStop0;
      mask := mask0;
      sample := sample0;
    }
  }

  /** Constrained decoding is on: the grammar compiled and tokens can be rendered. */
  predicate GrammarOn(gp: GenParams) {
    gp.grammarReady && gp.hasText
  }

  class Slot {
    var history: seq<int>
    var kv: seq<seq<Row>>
    var streams: Vec
    var lastH: Vec
    var pos: nat
    var have: bool
    var live: bool
    var gp: GenParams
    var rng: nat
    var emitted: nat
    var accepted: seq<string>
    var allow: Option<seq<bool>>
    var decoded: string
    var tokenLps: seq<real>

    constructor (gp0: GenParams)
      ensures kv == [] && pos == 0 && !have && !live && history == []
    {
      history, kv, streams, lastH, pos := [], [], [], [], 0;
      have, live, gp, rng, emitted := false, false, gp0, 1, 0;
      accepted, allow, decoded, tokenLps := [], None, "", [];
    }

    /** Every layer has a buffer with room for n rows. */
    predicate Room(net: Net, n: nat)
      reads this`kv
    {
      HasRoom(kv, net.layers, n)
    }

    /** What the slot means: the rows below pos, and the streams. */
    function State(): KvState
      reads this`kv, this`pos, this`streams
    {
      KvState(pos, Below(kv, pos), streams)
    }

    method Alloc(net: Net, tMax: int)
      modifies this
      ensures Room(net, AtLeastOne(tMax)) && State() == Empty(net)
      ensures !have && !live && history == [] && emitted == 0 && lastH == []
      ensures accepted == [] && allow == None && decoded == "" && tokenLps == []
      ensures gp == old(gp) && rng == old(rng)
    {
      var zero := net.zeroRow;
      var buffer := seq(AtLeastOne(tMax), i => zero);
      kv := seq(net.layers, l => buffer);
      streams, pos, have, live, lastH, history, emitted := net.zeroStreams, 0, false, false, [], [], 0;
      allow, decoded, tokenLps, accepted := None, "", [], [];
      assert Below(kv, 0) == Empty(net).rows;
    }

    /** Grows the buffers to tMax rows and keeps every row already there. */
    method EnsureT(net: Net, tMax: int)
      requires |kv| <= net.layers
      modifies this`kv
      ensures Room(net, AtLeastOne(tMax)) && Extends(old(kv), kv)
    {
      var tcap := AtLeastOne(tMax);
      var zero := net.zeroRow;
      ghost var was := kv;
      while |kv| < net.layers
        invariant |was| <= |kv| <= net.layers && Extends(was, kv)
        decreases net.layers - |kv|
      {
        kv := kv + [[]];
      }
      var l := 0;
      while l < net.layers
        invariant 0 <= l <= net.layers == |kv| && Extends(was, kv)
        invariant forall j :: 0 <= j < l ==> tcap <= |kv[j]|
      {
        if |kv[l]| < tcap {
          kv := kv[l := kv[l] + seq(tcap - |kv[l]|, i => zero)];
        }
        l := l + 1;
      }
    }

    method SnapH(net: Net)
      modifies this`lastH
      ensures lastH == net.pool(streams)
    {
      lastH := net.pool(streams);
    }

    /** One decode step. */
    method Step(net: Net, token: int) returns (ok: bool)
      requires Room(net, pos + 1)
      modifies this`kv, this`streams, this`pos, this`lastH
      ensures SameShape(kv, old(kv))
      ensures var want := Dsv4Net.Step(net, old(State()), token);
              ok == want.ok && (ok ==> State() == want.s && lastH == net.pool(streams))
      ensures pos == if ok then old(pos) + 1 else old(pos)
      ensures Below(kv, old(pos)) == old(State().rows)
      ensures !ok ==> streams == StopStreams(net, 0, old(State().rows), net.embed(token))
    {
      hide Layers;
      streams := net.embed(token);
      ok, kv, streams := StepLayers(net, kv, streams, pos);
      if ok {
        pos := pos + 1;
        SnapH(net);
      }
    }

    lemma StateParts()
      ensures State().rows == Below(kv, pos) && State().pos == pos && State().streams == streams
    {}

    /** A prefill window: all tokens through one layer before the next layer. */
    method PrefillWindow(net: Net, ids: seq<int>) returns (ok: bool)
      requires Room(net, pos + |ids|)
      modifies this`kv, this`streams, this`pos, this`lastH
      ensures SameShape(kv, old(kv))
      ensures var want := Feed(net, old(State()), ids);
              ok == want.ok && (ok ==> State() == want.s && (ids != [] ==> lastH == net.pool(streams)))
      ensures Below(kv, old(pos)) == old(State().rows)
      ensures !ok ==> old(pos) <= pos < old(pos) + |ids|
      ensures !ok ==> var stop := WindowStop(net, old(State()), ids); pos == old(pos) + stop.at && streams == stop.st
    {
      hide LayerMajor, Feed, Dsv4Net.Step, MajorStop, StopStreams;
      FeedNone(net, State());
      if |ids| == 0 {
        assert ids == [];
        ok := true;
      } else if |ids| == 1 {
        assert ids == [ids[0]];
        FeedOne(net, State(), ids[0]);
        ok := Step(net, ids[0]);
      } else {
        WindowIsSteps(net, State(), ids);
        var acts := EmbedWindow(net, ids);
        var at;
        ok, kv, acts, at, streams := WindowLayers(net, kv, acts, pos);
        if ok {
          streams := acts[|ids| - 1];
          pos := pos + |ids|;
          SnapH(net);
        } else {
          pos := at;
        }
      }
    }

    /** Prefill of ids[start..] in windows of at most `chunk` tokens: the chunk does not matter. */
    method Prefill(net: Net, ids: seq<int>, start: int, chunk: nat) returns (ok: bool)
      requires chunk > 0 && start <= |ids| && Room(net, pos + |Tail(ids, start)|)
      modifies this`kv, this`streams, this`pos, this`lastH
      ensures SameShape(kv, old(kv))
      ensures var want := Feed(net, old(State()), Tail(ids, start));
              ok == want.ok && (ok ==> State() == want.s && lastH == net.pool(streams))
      ensures Below(kv, old(pos)) == old(State().rows) && pos >= old(pos)
      ensures !ok ==> Stop(pos, streams) == PrefillStop(net, old(State()), Tail(ids, start), chunk)
    {
      hide Dsv4Net.Step, WindowStop, Slot.State, Below, First, PrefillStop, Feed, SameShape;
      ghost var kv0 := kv;
      SameAsItself(kv);
      ghost var goal, rest := Feed(net, State(), Tail(ids, start)), Tail(ids, start);
      ghost var stop, pos0 := PrefillStop(net, State(), Tail(ids, start), chunk), pos;
      StateParts();
      var i := if start < 0 then 0 else start;
      while i < |ids|
        invariant 0 <= i <= |ids| && rest == ids[i..] && SameShape(kv, old(kv))
        invariant Room(net, pos + |rest|)
        invariant goal == Feed(net, State(), rest)
        invariant pos >= pos0 && Below(kv, pos0) == old(State().rows) && stop == PrefillStop(net, State(), rest, chunk)
      {
        ghost var kv1, pos1 := kv, pos;
        StateParts();
        var c := if chunk < |ids| - i then chunk else |ids| - i;
        WindowSplit(net, State(), ids, i, c);
        PrefillStep(net, State(), rest, chunk);
        assert rest[..c] == ids[i..i + c] && rest[c..] == ids[i + c..];
        ok := PrefillWindow(net, ids[i..i + c]);
        StateParts();
        BelowLess(kv, kv1, pos1, pos0);
        SameThrough(kv, kv1, kv0);
        if !ok {
          return;
        }
        RoomLeft(net, kv1, kv, pos1 + |rest|);
        i, rest := i + c, ids[i + c..];
      }
      assert rest == [];
      PrefillEnds(net, State(), chunk);
      SnapH(net);
      return true;
    }
  }

  /** The tokens a prefill starting at `start` still has to process. */
  function Tail(ids: seq<int>, start: int): seq<int>
    requires start <= |ids|
  {
    if start < 0 then ids else ids[start..]
  }

  lemma WindowSplit(net: Net, s: KvState, ids: seq<int>, i: nat, c: nat)
    requires i + c <= |ids|
    ensures Feed(net, s, ids[i..]) == FeedThen(net, s, ids[i..i + c], ids[i + c..])
    ensures Feed(net, s, ids[i..i + c]).s.pos == s.pos + c
  {
    assert ids[i..] == ids[i..i + c] + ids[i + c..];
    FeedAppend(net, s, ids[i..i + c], ids[i + c..]);
    FeedPos(net, s, ids[i..i + c]);
  }

  /** The layer loop of a decode step. */
  method StepLayers(net: Net, kv0: seq<seq<Row>>, st0: Vec, pos: nat)
    returns (ok: bool, kv: seq<seq<Row>>, st: Vec)
    requires HasRoom(kv0, net.layers, pos + 1)
    ensures SameShape(kv, kv0)
    ensures var want := Layers(net, 0, Below(kv0, pos), st0);
            ok == want.ok && (ok ==> want == TokenOut(true, Below(kv, pos + 1), st))
    ensures Below(kv, pos) == Below(kv0, pos)
    ensures !ok ==> st == StopStreams(net, 0, Below(kv0, pos), st0)
  {
    hide Layer, Layers, StopStreams, Split, Below, First, PrependToken;
    kv, st := kv0, st0;
    ghost var stop := StopStreams(net, 0, Below(kv, pos), st);
    ghost var goal := Layers(net, 0, Below(kv, pos), st);
    ghost var done, rest := [], Below(kv, pos);
    SplitNone(kv, pos + 1, pos);
    var l := 0;
    while l < net.layers
      invariant 0 <= l <= net.layers && SameShape(kv, kv0)
      invariant Split(kv, l, pos + 1, done, pos, rest)
      invariant goal == PrependToken(done, Layers(net, l, rest, st))
      invariant Below(kv, pos) == Below(kv0, pos) && stop == StopStreams(net, l, rest, st)
    {
      LayersLeft(kv, l, pos + 1, done, pos, rest);
      TokenStep(net, l, done, rest, st);
      StopNext(net, l, rest, st);
      var buf;
      ghost var out := Layer(net, l, First(kv[l], pos), st);
      ok, buf, st := LayerAt(net, l, kv[l], st, pos);
      FirstLess(buf, kv[l], out.row, pos, pos);
      SplitNext(kv, l, buf, pos + 1, done, pos, rest);
      OneBuffer(kv, l, buf, pos);
      kv := kv[l := buf];
      if !ok {
        return;
      }
      done, rest := done + [First(buf, pos + 1)], rest[1..];
      l := l + 1;
    }
    SplitAll(kv, pos + 1, done, pos, rest);
    NoLayer(net, l, done, st);
    ok := true;
  }

  lemma NoLayer(net: Net, l: nat, done: seq<seq<Row>>, st: Vec)
    ensures PrependToken(done, Layers(net, l, [], st)) == TokenOut(true, done, st)
  {}

  lemma StopNext(net: Net, l: nat, rows: seq<seq<Row>>, st: Vec)
    requires rows != []
    ensures var o := Layer(net, l, rows[0], st);
            StopStreams(net, l, rows, st) == if o.ok then StopStreams(net, l + 1, rows[1..], o.st) else o.st
  {}

  /** Writing one buffer from position p on keeps what is below. */
  lemma OneBuffer(kv: seq<seq<Row>>, l: nat, buf: seq<Row>, p: nat)
    requires l < |kv| && |buf| == |kv[l]| && First(buf, p) == First(kv[l], p)
    ensures Below(kv[l := buf], p) == Below(kv, p)
  {}

  /** Fills the activation slab of a window. */
  method EmbedWindow(net: Net, ids: seq<int>) returns (acts: seq<Vec>)
    ensures acts == Embedded(net, ids)
  {
    acts := [];
    var c := 0;
    while c < |ids|
      invariant 0 <= c <= |ids| && acts == Embedded(net, ids[..c])
    {
      acts := acts + [net.embed(ids[c])];
      c := c + 1;
    }
    assert ids[..c] == ids;
  }

  /** The outer loop of a window: every layer over the whole slab. `at` is the last position visited. */
  method WindowLayers(net: Net, kv0: seq<seq<Row>>, slab: seq<Vec>, pos0: nat)
    returns (ok: bool, kv: seq<seq<Row>>, acts: seq<Vec>, at: nat, st: Vec)
    requires HasRoom(kv0, net.layers, pos0 + |slab|) && slab != []
    ensures SameShape(kv, kv0) && |acts| == |slab| && pos0 <= at < pos0 + |slab|
    ensures ok ==> at == pos0 + |slab| - 1
    ensures var want := LayerMajor(net, 0, Below(kv0, pos0), slab);
            ok == want.ok && (ok ==> want == WindowOut(true, Below(kv, pos0 + |slab|), acts))
    ensures Below(kv, pos0) == Below(kv0, pos0)
    ensures !ok ==> Stop(at - pos0, st) == MajorStop(net, 0, Below(kv0, pos0), slab)
  {
    var n := |slab|;
    hide LayerPass, LayerMajor, Split, Below, First, PrependWindow, MajorStop, PassStop;
    kv, acts, at, st := kv0, slab, pos0 + n - 1, [];
    ghost var stop := MajorStop(net, 0, Below(kv, pos0), slab);
    ghost var goal := LayerMajor(net, 0, Below(kv, pos0), slab);
    ghost var done, rest := [], Below(kv, pos0);
    SplitNone(kv, pos0 + n, pos0);
    var l := 0;
    while l < net.layers
      invariant 0 <= l <= net.layers && |acts| == n && SameShape(kv, kv0) && at == pos0 + n - 1
      invariant Split(kv, l, pos0 + n, done, pos0, rest)
      invariant goal == PrependWindow(done, LayerMajor(net, l, rest, acts))
      invariant Below(kv, pos0) == Below(kv0, pos0) && stop == MajorStop(net, l, rest, acts)
    {
      LayersLeft(kv, l, pos0 + n, done, pos0, rest);
      WindowStep(net, l, done, rest, acts);
      StopStep(net, l, rest, acts);
      var buf;
      ok, buf, acts, at, st := WindowLayer(net, l, kv[l], acts, pos0);
      SplitNext(kv, l, buf, pos0 + n, done, pos0, rest);
      OneBuffer(kv, l, buf, pos0);
      kv := kv[l := buf];
      if !ok {
        return;
      }
      done, rest := done + [First(buf, pos0 + n)], rest[1..];
      l := l + 1;
    }
    SplitAll(kv, pos0 + n, done, pos0, rest);
    NoLayersLeft(net, l, done, acts);
    ok := true;
  }

  /** The inner loop of a window: one layer over the activation slab, token by token. */
  method WindowLayer(net: Net, l: nat, buf0: seq<Row>, slab: seq<Vec>, pos0: nat)
    returns (ok: bool, buf: seq<Row>, acts: seq<Vec>, at: nat, st: Vec)
    requires pos0 + |slab| <= |buf0| && slab != []
    ensures |buf| == |buf0| && |acts| == |slab| && pos0 <= at < pos0 + |slab|
    ensures ok ==> at == pos0 + |slab| - 1
    ensures var want := LayerPass(net, l, First(buf0, pos0), slab);
            ok == want.ok && (ok ==> want == PassOut(true, First(buf, pos0 + |slab|), acts))
    ensures First(buf, pos0) == First(buf0, pos0)
    ensures !ok ==> Stop(at - pos0, st) == PassStop(net, l, First(buf0, pos0), slab)
  {
    hide Layer, LayerPass, PassStop, PrependPass, Beyond, First;
    BeyondNone(PassStop(net, l, First(buf0, pos0), slab));
    PassNone();
    buf, acts, at, st := buf0, slab, pos0, [];
    ghost var stop := PassStop(net, l, First(buf, pos0), slab);
    ghost var goal := LayerPass(net, l, First(buf, pos0), slab);
    ghost var done, rows, rest := [], First(buf, pos0), slab;
    var c := 0;
    while c < |slab|
      invariant 0 <= c <= |slab| && |buf| == |buf0| && at == pos0 + (if c == 0 then 0 else c - 1)
      invariant |done| == c && |rest| == |slab| - c && acts == done + rest
      invariant rows == First(buf, pos0 + c)
      invariant goal == PrependPass(done, LayerPass(net, l, rows, rest))
      invariant First(buf, pos0) == First(buf0, pos0) && stop == Beyond(c, PassStop(net, l, rows, rest))
    {
      at := pos0 + c;
      PassStep(net, l, done, rows, rest);
      PassStopStep(net, l, c, rows, rest);
      assert rest != [] && acts[c] == rest[0];
      ghost var buf1, out := buf, Layer(net, l, First(buf, at), acts[c]);
      ok, buf, st := LayerAt(net, l, buf, acts[c], at);
      FirstLess(buf, buf1, out.row, at, pos0);
      if !ok {
        return;
      }
      SlabStep(done, rest, st);
      acts := acts[c := st];
      done, rows, rest := done + [st], First(buf, at + 1), rest[1..];
      c := c + 1;
    }
    assert acts == done && rest == [];
    PassEnds(net, l, done, rows);
    ok := true;
  }

  /** Layer l applied to the streams of the token at position `at`, in the layer's row buffer. */
  method LayerAt(net: Net, l: nat, buf0: seq<Row>, st0: Vec, at: nat)
    returns (ok: bool, buf: seq<Row>, st: Vec)
    requires at < |buf0|
    ensures |buf| == |buf0|
    ensures var out := Layer(net, l, First(buf0, at), st0);
            ok == out.ok && First(buf, at + 1) == First(buf0, at) + [out.row] && out.st == st
  {
    if net.officialAttn(l) {
      var e := net.hcEnter(l, false, st0);
      var y;
      buf, y := AttnOne(net, l, e.x, at, buf0);
      st := net.mhcPost(st0, y, e.mix);
    } else {
      st := net.mhcMix(l, st0);
      var y;
      buf, y := AttnOne(net, l, net.head(st), at, buf0);
      st := net.addHead(st, y);
    }
    if net.officialFfn(l) {
      var e := net.hcEnter(l, true, st);
      match net.ffn(l, e.x)
      case None => ok := false;
      case Some(y) =>
        st := net.mhcPost(st, y, e.mix);
        ok := true;
    } else {
      match net.ffn(l, net.head(st))
      case None => ok := false;
      case Some(y) =>
        st := net.mhcMix(l, net.addHead(st, y));
        ok := true;
    }
  }

  /** The attention branch: caches the row of position `at`, then attends over rows 0..at only. */
  method AttnOne(net: Net, l: nat, x: Vec, at: nat, buf0: seq<Row>) returns (buf: seq<Row>, y: Vec)
    requires at < |buf0|
    ensures buf == buf0[at := MakeRow(net, l, x, at)]
    ensures First(buf, at + 1) == First(buf0, at) + [MakeRow(net, l, x, at)]
    ensures y == Attention(net, l, x, First(buf0, at) + [MakeRow(net, l, x, at)])
  {
    buf := buf0[at := MakeRow(net, l, x, at)];
    assert buf[..at + 1] == First(buf0, at) + [MakeRow(net, l, x, at)];
    var sel := ChooseRows(net, l, x, buf, at);
    var picked := GatherRows(sel, buf, at);
    y := net.attend(l, x, at, picked);
  }

  /** The candidate positions for a query at `at`, whatever the buffer holds beyond it. */
  method ChooseRows(net: Net, l: nat, x: Vec, buf: seq<Row>, at: nat) returns (sel: seq<int>)
    requires at < |buf|
    ensures sel == Candidates(net, l, x, buf[..at + 1])
  {
    if net.dsaLive(l) {
      var keys := seq(at + 1, i requires 0 <= i < at + 1 => buf[i].ikey);
      var gates := seq(at + 1, i requires 0 <= i < at + 1 => buf[i].igate);
      ghost var seen := buf[..at + 1];
      assert keys == seq(|seen|, i requires 0 <= i < |seen| => seen[i].ikey);
      assert gates == seq(|seen|, i requires 0 <= i < |seen| => seen[i].igate);
      sel := net.select(l, x, keys, gates);
    } else if net.window > 0 {
      var lo := if at + 1 - net.window > 0 then at + 1 - net.window else 0;
      sel := seq(at - lo + 1, i => lo + i);
    } else {
      sel := seq(at + 1, i => i);
    }
  }

  /** The cached values of the candidates that lie in 0..at. */
  method GatherRows(sel: seq<int>, buf: seq<Row>, at: nat) returns (picked: seq<Vec>)
    requires at < |buf|
    ensures picked == Pick(sel, buf[..at + 1])
  {
    picked := [];
    ghost var rest := sel;
    var k := 0;
    while k < |sel|
      invariant 0 <= k <= |sel| && rest == sel[k..]
      invariant Pick(sel, buf[..at + 1]) == picked + Pick(rest, buf[..at + 1])
    {
      if 0 <= sel[k] <= at {
        picked := picked + [buf[sel[k]].kv];
      }
      rest := rest[1..];
      k := k + 1;
    }
  }

  function AtLeastOne(n: int): nat {
    if n > 1 then n else 1
  }

  predicate HasRoom(kv: seq<seq<Row>>, layers: nat, n: nat) {
    |kv| == layers && forall l :: 0 <= l < |kv| ==> n <= |kv[l]|
  }

  predicate SameShape(a: seq<seq<Row>>, b: seq<seq<Row>>) {
    |a| == |b| && forall l :: 0 <= l < |a| ==> |a[l]| == |b[l]|
  }

  /** Every buffer of a is the beginning of the same layer's buffer of b. */
  predicate Extends(a: seq<seq<Row>>, b: seq<seq<Row>>) {
    |a| <= |b| && forall l :: 0 <= l < |a| ==> a[l] <= b[l]
  }

  function First(buf: seq<Row>, n: nat): seq<Row> {
    if n <= |buf| then buf[..n] else buf
  }

  /** The first n rows of every layer. */
  function Below(kv: seq<seq<Row>>, n: nat): seq<seq<Row>> {
    seq(|kv|, l requires 0 <= l < |kv| => First(kv[l], n))
  }

  lemma SameAsItself(kv: seq<seq<Row>>)
    ensures SameShape(kv, kv)
  {}

  lemma SameThrough(a: seq<seq<Row>>, b: seq<seq<Row>>, c: seq<seq<Row>>)
    requires SameShape(a, b) && SameShape(b, c)
    ensures SameShape(a, c)
  {}

  lemma RoomLeft(net: Net, a: seq<seq<Row>>, b: seq<seq<Row>>, n: nat)
    requires SameShape(b, a) && HasRoom(a, net.layers, n)
    ensures HasRoom(b, net.layers, n)
  {}

  lemma PrefillEnds(net: Net, s: KvState, chunk: nat)
    requires chunk > 0
    ensures PrefillStop(net, s, [], chunk) == Stop(s.pos, s.streams) && Feed(net, s, []) == Fed(true, s)
  {}

  lemma PrefillStep(net: Net, s: KvState, ids: seq<int>, chunk: nat)
    requires chunk > 0 && ids != []
    ensures var c := if chunk < |ids| then chunk else |ids|;
            var f := Feed(net, s, ids[..c]);
            PrefillStop(net, s, ids, chunk) ==
            if f.ok then PrefillStop(net, f.s, ids[c..], chunk) else Beyond(s.pos, WindowStop(net, s, ids[..c]))
  {
    hide Feed, WindowStop;
  }

  lemma BelowLess(a: seq<seq<Row>>, b: seq<seq<Row>>, p: nat, q: nat)
    requires Below(a, p) == Below(b, p) && q <= p && SameShape(a, b)
    ensures Below(a, q) == Below(b, q)
  {
    forall l | 0 <= l < |a|
      ensures First(a[l], q) == First(b[l], q)
    {
      assert Below(a, p)[l] == First(a[l], p) && Below(b, p)[l] == First(b[l], p);
      assert First(a[l], q) == First(First(a[l], p), q) && First(b[l], q) == First(First(b[l], p), q);
    }
  }

  /** A buffer that was written at position `at` is the same below it. */
  lemma FirstLess(a: seq<Row>, b: seq<Row>, row: Row, at: nat, n: nat)
    requires n <= at < |a| == |b| && First(a, at + 1) == First(b, at) + [row]
    ensures First(a, n) == First(b, n)
  {
    assert First(a, n) == First(a, at + 1)[..n] && First(b, n) == First(b, at)[..n];
  }

  lemma SlabStep(done: seq<Vec>, rest: seq<Vec>, st: Vec)
    requires rest != []
    ensures (done + rest)[|done| := st] == (done + [st]) + rest[1..]
  {}

  /** Layers below l are finished (their first q rows are `done`), the others wait with their first p rows. */
  predicate Split(kv: seq<seq<Row>>, l: nat, q: nat, done: seq<seq<Row>>, p: nat, rest: seq<seq<Row>>) {
    && |done| == l <= |kv| && |rest| == |kv| - l
    && (forall j :: 0 <= j < l ==> done[j] == First(kv[j], q))
    && (forall j :: 0 <= j < |rest| ==> rest[j] == First(kv[l + j], p))
  }

  lemma SplitNone(kv: seq<seq<Row>>, q: nat, p: nat)
    ensures Split(kv, 0, q, [], p, Below(kv, p))
  {}

  lemma LayersLeft(kv: seq<seq<Row>>, l: nat, q: nat, done: seq<seq<Row>>, p: nat, rest: seq<seq<Row>>)
    requires Split(kv, l, q, done, p, rest) && l < |kv|
    ensures rest != [] && rest[0] == First(kv[l], p)
  {}

  lemma SplitAll(kv: seq<seq<Row>>, q: nat, done: seq<seq<Row>>, p: nat, rest: seq<seq<Row>>)
    requires Split(kv, |kv|, q, done, p, rest)
    ensures done == Below(kv, q) && rest == []
  {}

  lemma SplitNext(kv: seq<seq<Row>>, l: nat, buf: seq<Row>, q: nat, done: seq<seq<Row>>, p: nat,
                  rest: seq<seq<Row>>)
    requires Split(kv, l, q, done, p, rest) && l < |kv| && |buf| == |kv[l]|
    ensures Split(kv[l := buf], l + 1, q, done + [First(buf, q)], p, rest[1..])
    ensures rest[0] == First(kv[l], p)
  {}

  // What one more layer, or one more token of a pass, adds to the part already done.

  function PrependToken(done: seq<seq<Row>>, t: TokenOut): (r: TokenOut)
    ensures done == [] ==> r == t
  {
    assert done == [] ==> done + t.rows == t.rows;
    TokenOut(t.ok, done + t.rows, t.st)
  }

  lemma TokenStep(net: Net, l: nat, done: seq<seq<Row>>, rows: seq<seq<Row>>, st: Vec)
    requires rows != []
    ensures var o, all := Layer(net, l, rows[0], st), PrependToken(done, Layers(net, l, rows, st));
            if o.ok then all == PrependToken(done + [rows[0] + [o.row]], Layers(net, l + 1, rows[1..], o.st))
            else !all.ok
  {
    var o := Layer(net, l, rows[0], st);
    var t := Layers(net, l + 1, rows[1..], o.st);
    assert done + ([rows[0] + [o.row]] + t.rows) == done + [rows[0] + [o.row]] + t.rows;
  }

  function PrependWindow(done: seq<seq<Row>>, w: WindowOut): (r: WindowOut)
    ensures done == [] ==> r == w
  {
    assert done == [] ==> done + w.rows == w.rows;
    WindowOut(w.ok, done + w.rows, w.xs)
  }

  lemma NoLayersLeft(net: Net, l: nat, done: seq<seq<Row>>, xs: seq<Vec>)
    ensures PrependWindow(done, LayerMajor(net, l, [], xs)) == WindowOut(true, done, xs)
  {}

  lemma WindowStep(net: Net, l: nat, done: seq<seq<Row>>, rows: seq<seq<Row>>, xs: seq<Vec>)
    requires rows != []
    ensures var p, all := LayerPass(net, l, rows[0], xs), PrependWindow(done, LayerMajor(net, l, rows, xs));
            if p.ok then all == PrependWindow(done + [p.rows], LayerMajor(net, l + 1, rows[1..], p.xs))
            else !all.ok
  {
    var p := LayerPass(net, l, rows[0], xs);
    var w := LayerMajor(net, l + 1, rows[1..], p.xs);
    assert done + ([p.rows] + w.rows) == done + [p.rows] + w.rows;
  }

  function PrependPass(done: seq<Vec>, p: PassOut): (r: PassOut)
    ensures done == [] ==> r == p
  {
    assert done == [] ==> done + p.xs == p.xs;
    PassOut(p.ok, p.rows, done + p.xs)
  }

  /** The stop of a pass that c tokens have gone through before. */
  function Beyond(c: nat, stop: Stop): Stop {
    Stop(c + stop.at, stop.st)
  }

  lemma PassNone()
    ensures forall p: PassOut :: PrependPass([], p) == p
  {}

  lemma PassEnds(net: Net, l: nat, done: seq<Vec>, rows: seq<Row>)
    ensures PrependPass(done, LayerPass(net, l, rows, [])) == PassOut(true, rows, done)
  {}

  lemma PassStopStep(net: Net, l: nat, c: nat, rows: seq<Row>, xs: seq<Vec>)
    requires xs != []
    ensures var o := Layer(net, l, rows, xs[0]);
            Beyond(c, PassStop(net, l, rows, xs)) ==
            if o.ok then Beyond(c + 1, PassStop(net, l, rows + [o.row], xs[1..])) else Stop(c, o.st)
  {}

  lemma BeyondNone(stop: Stop)
    ensures Beyond(0, stop) == stop
  {}

  lemma StopStep(net: Net, l: nat, rows: seq<seq<Row>>, xs: seq<Vec>)
    requires rows != []
    ensures var p := LayerPass(net, l, rows[0], xs);
            MajorStop(net, l, rows, xs) ==
            if p.ok then MajorStop(net, l + 1, rows[1..], p.xs) else PassStop(net, l, rows[0], xs)
  {}

  lemma PassStep(net: Net, l: nat, done: seq<Vec>, rows: seq<Row>, xs: seq<Vec>)
    requires xs != []
    ensures var o, all := Layer(net, l, rows, xs[0]), PrependPass(done, LayerPass(net, l, rows, xs));
            if o.ok then all == PrependPass(done + [o.st], LayerPass(net, l, rows + [o.row], xs[1..]))
            else !all.ok
  {
    var o := Layer(net, l, rows, xs[0]);
    var p := LayerPass(net, l, rows + [o.row], xs[1..]);
    assert done + ([o.st] + p.xs) == done + [o.st] + p.xs;
  }

  lemma FeedNone(net: Net, s: KvState)
    ensures Feed(net, s, []) == Fed(true, s)
  {}

  lemma FeedOne(net: Net, s: KvState, id: int)
    ensures Feed(net, s, [id]) == Dsv4Net.Step(net, s, id)
  {
    assert [id][1..] == [];
  }
}
