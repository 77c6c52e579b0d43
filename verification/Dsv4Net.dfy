/**
 The DeepSeek V4 forward pass as pure functions.

 The numeric kernels are fields of `Net`, so every theorem holds for all of them. What is spelled
 out is which rows a layer reads and writes, and in which order tokens and layers are visited:
 token-major (`Feed`, one decode step after another) and layer-major (`LayerMajor`, one prefill
 window). The two orders are proved to compute the same state.
 */
module Dsv4Net {
  import opened Results

  type Vec = seq<real>

  /** What one layer caches for one position. The indexer parts are None in layers without an indexer. */
  datatype Row = Row(kv: Vec, ikey: Option<Vec>, igate: Option<Vec>)

  /** The mixing state that entering a hyper-connection hands to leaving it. */
  datatype Mix = Mix(post: Vec, comb: Vec)

  /** The collapsed input of a branch together with its mixing state. */
  datatype Entered = Entered(x: Vec, mix: Mix)

  /** The loaded engine: its geometry and its kernels, none of which changes after load. */
  class Net {
    const layers: nat
    const window: int
    const zeroRow: Row
    const zeroStreams: Vec
    const embed: int -> Vec
    const officialAttn: nat -> bool
    const officialFfn: nat -> bool
    const hcEnter: (nat, bool, Vec) -> Entered
    const mhcPost: (Vec, Vec, Mix) -> Vec
    const mhcMix: (nat, Vec) -> Vec
    const head: Vec -> Vec
    const addHead: (Vec, Vec) -> Vec
    const kvRow: (nat, Vec, nat) -> Vec
    const dsaLive: nat -> bool
    const hasGate: nat -> bool
    const indexKey: (nat, Vec) -> Vec
    const indexGate: (nat, Vec) -> Vec
    const select: (nat, Vec, seq<Option<Vec>>, seq<Option<Vec>>) -> seq<int>
    const attend: (nat, Vec, nat, seq<Vec>) -> Vec
    const ffn: (nat, Vec) -> Option<Vec>
    const pool: Vec -> Vec

    constructor (layers0: nat, window0: int, zeroRow0: Row, zeroStreams0: Vec, embed0: int -> Vec,
                 officialAttn0: nat -> bool, officialFfn0: nat -> bool, hcEnter0: (nat, bool, Vec) -> Entered,
                 mhcPost0: (Vec, Vec, Mix) -> Vec, mhcMix0: (nat, Vec) -> Vec, head0: Vec -> Vec,
                 addHead0: (Vec, Vec) -> Vec, kvRow0: (nat, Vec, nat) -> Vec, dsaLive0: nat -> bool,
                 hasGate0: nat -> bool, indexKey0: (nat, Vec) -> Vec, indexGate0: (nat, Vec) -> Vec,
                 select0: (nat, Vec, seq<Option<Vec>>, seq<Option<Vec>>) -> seq<int>,
                 attend0: (nat, Vec, nat, seq<Vec>) -> Vec, ffn0: (nat, Vec) -> Option<Vec>, pool0: Vec -> Vec)
      ensures layers == layers0 && window == window0 && zeroRow == zeroRow0 && zeroStreams == zeroStreams0
      ensures embed == embed0 && officialAttn == officialAttn0 && officialFfn == officialFfn0 && hcEnter == hcEnter0
      ensures mhcPost == mhcPost0 && mhcMix == mhcMix0 && head == head0 && addHead == addHead0
      ensures kvRow == kvRow0 && dsaLive == dsaLive0 && hasGate == hasGate0 && indexKey == indexKey0
      ensures indexGate == indexGate0 && select == select0 && attend == attend0 && ffn == ffn0
      ensures pool == pool0
    {
      layers := layers0;
      window := window0;
      zeroRow := zeroRow0;
      zeroStreams := zeroStreams0;
      embed := embed0;
      officialAttn := officialAttn0;
      officialFfn := officialFfn0;
      hcEnter := hcEnter0;
      mhcPost := mhcPost0;
      mhcMix := mhcMix0;
      head := head0;
      addHead := addHead0;
      kvRow := kvRow0;
      dsaLive := dsaLive0;
      hasGate := hasGate0;
      indexKey := indexKey0;
      indexGate := indexGate0;
      select := select0;
      attend := attend0;
      ffn := ffn0;
      pool := pool0;
    }
  }

  // ---------------------------------------------------------------------------------------------
  // One layer
  // ---------------------------------------------------------------------------------------------

  function MakeRow(net: Net, l: nat, x: Vec, at: nat): Row {
    Row(net.kvRow(l, x, at),
        if net.dsaLive(l) then Some(net.indexKey(l, x)) else None,
        if net.dsaLive(l) && net.hasGate(l) then Some(net.indexGate(l, x)) else None)
  }

  /** The candidate positions attention looks at: indexer choice, sliding window, or everything. */
  function Candidates(net: Net, l: nat, x: Vec, rows: seq<Row>): seq<int>
    requires |rows| > 0
  {
    var at := |rows| - 1;
    if net.dsaLive(l) then
      net.select(l, x, seq(|rows|, i requires 0 <= i < |rows| => rows[i].ikey),
                 seq(|rows|, i requires 0 <= i < |rows| => rows[i].igate))
    else if net.window > 0 then
      var lo := if at + 1 - net.window > 0 then at + 1 - net.window else 0;
      seq(at - lo + 1, i => lo + i)
    else
      seq(at + 1, i => i)
  }

  /** The cached values at the candidates that are positions of `rows`, in candidate order. */
  function Pick(sel: seq<int>, rows: seq<Row>): seq<Vec> {
    if sel == [] then []
    else if 0 <= sel[0] < |rows| then [rows[sel[0]].kv] + Pick(sel[1..], rows)
    else Pick(sel[1..], rows)
  }

  /** Attention of the last position of `rows` over `rows`. */
  function Attention(net: Net, l: nat, x: Vec, rows: seq<Row>): Vec
    requires |rows| > 0
  {
    net.attend(l, x, |rows| - 1, Pick(Candidates(net, l, x, rows), rows))
  }

  /** The input of the attention branch of layer l. */
  function AttnInput(net: Net, l: nat, st: Vec): Vec {
    if net.officialAttn(l) then net.hcEnter(l, false, st).x else net.head(net.mhcMix(l, st))
  }

  /** The streams after the attention branch produced y. */
  function AttnLeave(net: Net, l: nat, st: Vec, y: Vec): Vec {
    if net.officialAttn(l) then net.mhcPost(st, y, net.hcEnter(l, false, st).mix)
    else net.addHead(net.mhcMix(l, st), y)
  }

  /** The streams after the feed-forward branch, or None when an expert cannot be loaded. */
  function FfnBranch(net: Net, l: nat, st: Vec): Option<Vec> {
    if net.officialFfn(l) then
      var e := net.hcEnter(l, true, st);
      match net.ffn(l, e.x)
      case None => None
      case Some(y) => Some(net.mhcPost(st, y, e.mix))
    else
      match net.ffn(l, net.head(st))
      case None => None
      case Some(y) => Some(net.mhcMix(l, net.addHead(st, y)))
  }

  datatype LayerOut = LayerOut(ok: bool, row: Row, st: Vec)

  /** Layer l on one token whose position is |rows|. When ok is false the streams are those after the attention branch. */
  function Layer(net: Net, l: nat, rows: seq<Row>, st: Vec): LayerOut {
    var x := AttnInput(net, l, st);
    var row := MakeRow(net, l, x, |rows|);
    var mid := AttnLeave(net, l, st, Attention(net, l, x, rows + [row]));
    match FfnBranch(net, l, mid)
    case None => LayerOut(false, row, mid)
    case Some(st') => LayerOut(true, row, st')
  }

  // ---------------------------------------------------------------------------------------------
  // What a layer looks at
  // ---------------------------------------------------------------------------------------------

  /**
   Without an indexer a layer looks at the positions of the sliding window that ends at its own, all of them
   when there is no window, each once and in order.
   */
  lemma WindowRows(net: Net, l: nat, x: Vec, rows: seq<Row>)
    requires |rows| > 0 && !net.dsaLive(l)
    ensures var sel := Candidates(net, l, x, rows);
            && (forall i :: i in sel <==> 0 <= i < |rows| && (net.window > 0 ==> |rows| - net.window <= i))
            && (forall j, k :: 0 <= j < k < |sel| ==> sel[j] < sel[k])
  {
    hide Candidates;
    var sel, n := Candidates(net, l, x, rows), |rows|;
    var lo := if net.window > 0 && n > net.window then n - net.window else 0;
    WindowForm(net, l, x, rows);
    forall i | lo <= i < n
      ensures i in sel
    {
      assert sel[i - lo] == i;
    }
  }

  lemma WindowForm(net: Net, l: nat, x: Vec, rows: seq<Row>)
    requires |rows| > 0 && !net.dsaLive(l)
    ensures var sel, lo := Candidates(net, l, x, rows), if 0 < net.window < |rows| then |rows| - net.window else 0;
            |sel| == |rows| - lo && forall k :: 0 <= k < |sel| ==> sel[k] == lo + k
  {}

  /** Candidates inside the rows are all picked, in their order. */
  lemma {:induction false} PickAll(sel: seq<int>, rows: seq<Row>)
    requires forall k :: 0 <= k < |sel| ==> 0 <= sel[k] < |rows|
    ensures |Pick(sel, rows)| == |sel| && forall k :: 0 <= k < |sel| ==> Pick(sel, rows)[k] == rows[sel[k]].kv
  {
    if sel != [] {
      PickAll(sel[1..], rows);
    }
  }

  /** The values of the last n rows, or of all when there are fewer. */
  function LastValues(rows: seq<Row>, n: nat): seq<Vec> {
    var lo := if n < |rows| then |rows| - n else 0;
    seq(|rows| - lo, k requires 0 <= k < |rows| - lo => rows[lo + k].kv)
  }

  /** So the attention of such a layer is that over the values of the last rows of the window. */
  lemma WindowValues(net: Net, l: nat, x: Vec, rows: seq<Row>)
    requires |rows| > 0 && !net.dsaLive(l)
    ensures Attention(net, l, x, rows) ==
            net.attend(l, x, |rows| - 1, LastValues(rows, if net.window > 0 then net.window else |rows|))
  {
    hide Candidates, LastValues, Pick;
    WindowForm(net, l, x, rows);
    PickLast(Candidates(net, l, x, rows), rows, if net.window > 0 then net.window else |rows|);
  }

  lemma PickLast(sel: seq<int>, rows: seq<Row>, n: nat)
    requires var lo := if n < |rows| then |rows| - n else 0;
             |sel| == |rows| - lo && forall k :: 0 <= k < |sel| ==> sel[k] == lo + k
    ensures Pick(sel, rows) == LastValues(rows, n)
  {
    hide Pick;
    PickAll(sel, rows);
  }

  /** Rows further back than the window cannot change what a layer does. */
  lemma FarRowsIgnored(net: Net, l: nat, rows: seq<Row>, rows': seq<Row>, st: Vec)
    requires !net.dsaLive(l) && net.window > 0 && |rows| == |rows'|
    requires forall i :: 0 <= i < |rows| && |rows| - (net.window - 1) <= i ==> rows[i] == rows'[i]
    ensures Layer(net, l, rows, st) == Layer(net, l, rows', st)
  {
    hide Attention, MakeRow, AttnInput, LastValues, Candidates;
    var x := AttnInput(net, l, st);
    var row := MakeRow(net, l, x, |rows|);
    WindowValues(net, l, x, rows + [row]);
    WindowValues(net, l, x, rows' + [row]);
    SameLast(rows, rows', row, net.window);
  }

  lemma SameLast(rows: seq<Row>, rows': seq<Row>, row: Row, n: nat)
    requires n > 0 && |rows| == |rows'|
    requires forall i :: 0 <= i < |rows| && |rows| - (n - 1) <= i ==> rows[i] == rows'[i]
    ensures LastValues(rows + [row], n) == LastValues(rows' + [row], n)
  {}

  /**
   What a layer does with one token, in terms of its kernels alone: x is what attention gets, y what it
   gives, mid the streams after it.
   */
  ghost predicate Passes(net: Net, l: nat, rows: seq<Row>, st: Vec, row: Row, ok: bool, out: Vec, x: Vec, y: Vec, mid: Vec) {
    && x == (if net.officialAttn(l) then net.hcEnter(l, false, st).x else net.head(net.mhcMix(l, st)))
    && row.kv == net.kvRow(l, x, |rows|)
    && row.ikey == (if net.dsaLive(l) then Some(net.indexKey(l, x)) else None)
    && row.igate == (if net.dsaLive(l) && net.hasGate(l) then Some(net.indexGate(l, x)) else None)
    && (!net.dsaLive(l) && net.window <= 0 ==> y == net.attend(l, x, |rows|, LastValues(rows + [row], |rows| + 1)))
    && (!net.dsaLive(l) && net.window > 0 ==> y == net.attend(l, x, |rows|, LastValues(rows + [row], net.window)))
    && (net.dsaLive(l) ==>
          exists keys, gates :: PartsOf(keys, gates, rows + [row]) &&
            y == net.attend(l, x, |rows|, Pick(net.select(l, x, keys, gates), rows + [row])))
    && mid == (if net.officialAttn(l) then net.mhcPost(st, y, net.hcEnter(l, false, st).mix)
               else net.addHead(net.mhcMix(l, st), y))
    && (if net.officialFfn(l) then
          var e := net.hcEnter(l, true, mid);
          if ok then net.ffn(l, e.x).Some? && out == net.mhcPost(mid, net.ffn(l, e.x).value, e.mix) else net.ffn(l, e.x) == None
        else
          if ok then net.ffn(l, net.head(mid)).Some? && out == net.mhcMix(l, net.addHead(mid, net.ffn(l, net.head(mid)).value))
          else net.ffn(l, net.head(mid)) == None)
  }

  /** The indexer sees the keys and gates of all rows, its own included. */
  predicate PartsOf(keys: seq<Option<Vec>>, gates: seq<Option<Vec>>, rows: seq<Row>) {
    |keys| == |gates| == |rows| && forall i :: 0 <= i < |rows| ==> keys[i] == rows[i].ikey && gates[i] == rows[i].igate
  }

  lemma LayerPasses(net: Net, l: nat, rows: seq<Row>, st: Vec)
    ensures var o := Layer(net, l, rows, st);
            exists x, y, mid :: Passes(net, l, rows, st, o.row, o.ok, o.st, x, y, mid)
  {
    hide Candidates, Pick, LastValues;
    var o, x := Layer(net, l, rows, st), AttnInput(net, l, st);
    var all := rows + [o.row];
    var y := Attention(net, l, x, all);
    var mid := AttnLeave(net, l, st, y);
    if net.dsaLive(l) {
      AllParts(net, l, x, all);
    } else {
      WindowValues(net, l, x, all);
    }
    assert Passes(net, l, rows, st, o.row, o.ok, o.st, x, y, mid);
  }

  lemma AllParts(net: Net, l: nat, x: Vec, rows: seq<Row>)
    requires |rows| > 0 && net.dsaLive(l)
    ensures exists keys, gates :: PartsOf(keys, gates, rows) && Candidates(net, l, x, rows) == net.select(l, x, keys, gates)
  {
    var keys := seq(|rows|, i requires 0 <= i < |rows| => rows[i].ikey);
    var gates := seq(|rows|, i requires 0 <= i < |rows| => rows[i].igate);
    assert PartsOf(keys, gates, rows);
  }

  // ---------------------------------------------------------------------------------------------
  // Token-major order: the decode step, and feeding a list of tokens one by one
  // ---------------------------------------------------------------------------------------------

  /** ok says that no kernel failed; the other parts have a meaning only then. */
  datatype TokenOut = TokenOut(ok: bool, rows: seq<seq<Row>>, st: Vec)

  /** One token through layers l, l+1, ...; `rows` holds the cached rows of exactly those layers. */
  function Layers(net: Net, l: nat, rows: seq<seq<Row>>, st: Vec): TokenOut
    decreases |rows|
  {
    if rows == [] then TokenOut(true, [], st)
    else
      var o := Layer(net, l, rows[0], st);
      var t := Layers(net, l + 1, rows[1..], o.st);
      TokenOut(o.ok && t.ok, [rows[0] + [o.row]] + t.rows, t.st)
  }

  /** The streams that a token leaves when it stops at the first layer whose kernels fail. */
  function StopStreams(net: Net, l: nat, rows: seq<seq<Row>>, st: Vec): Vec
    decreases |rows|
  {
    if rows == [] then st
    else
      var o := Layer(net, l, rows[0], st);
      if o.ok then StopStreams(net, l + 1, rows[1..], o.st) else o.st
  }

  /** What determines every later result of a slot: the rows below pos, and the streams. */
  datatype KvState = KvState(pos: nat, rows: seq<seq<Row>>, streams: Vec)

  datatype Fed = Fed(ok: bool, s: KvState)

  function Empty(net: Net): KvState {
    KvState(0, seq(net.layers, l => []), net.zeroStreams)
  }

  function Step(net: Net, s: KvState, id: int): Fed {
    var t := Layers(net, 0, s.rows, net.embed(id));
    Fed(t.ok, KvState(s.pos + 1, t.rows, t.st))
  }

  /** A layer adds one row and turns the streams st into st'. */
  ghost predicate Goes(net: Net, l: nat, rows: seq<Row>, rows': seq<Row>, st: Vec, st': Vec) {
    exists row, x, y, mid :: rows' == rows + [row] && Passes(net, l, rows, st, row, true, st', x, y, mid)
  }

  /** The streams sts go through the layers l, l + 1, ... one after the other. */
  ghost predicate Runs(net: Net, l: nat, rows: seq<seq<Row>>, rows': seq<seq<Row>>, sts: seq<Vec>) {
    && |rows'| == |rows| && |sts| == |rows| + 1
    && forall j :: 0 <= j < |rows| ==> Goes(net, l + j, rows[j], rows'[j], sts[j], sts[j + 1])
  }

  lemma {:induction false} LayersRun(net: Net, l: nat, rows: seq<seq<Row>>, st: Vec) returns (sts: seq<Vec>)
    requires Layers(net, l, rows, st).ok
    ensures var t := Layers(net, l, rows, st);
            Runs(net, l, rows, t.rows, sts) && sts[0] == st && sts[|rows|] == t.st
    decreases |rows|
  {
    hide Layer, Passes;
    if rows == [] {
      sts := [st];
    } else {
      var o, t := Layer(net, l, rows[0], st), Layers(net, l, rows, st);
      LayerPasses(net, l, rows[0], st);
      var later := LayersRun(net, l + 1, rows[1..], o.st);
      sts := [st] + later;
      var rest := Layers(net, l + 1, rows[1..], o.st).rows;
      assert t.rows == [rows[0] + [o.row]] + rest;
      assert Goes(net, l, rows[0], t.rows[0], st, o.st);
      forall j | 1 <= j < |rows|
        ensures Goes(net, l + j, rows[j], t.rows[j], sts[j], sts[j + 1])
      {
        assert Goes(net, l + 1 + (j - 1), rows[1..][j - 1], rest[j - 1], later[j - 1], later[j]);
      }
    }
  }

  /** A decode step embeds its token and sends it through all layers, each of which caches one row. */
  lemma StepRuns(net: Net, s: KvState, id: int) returns (sts: seq<Vec>)
    requires Step(net, s, id).ok
    ensures var f := Step(net, s, id).s;
            && f.pos == s.pos + 1 && Runs(net, 0, s.rows, f.rows, sts)
            && sts[0] == net.embed(id) && sts[|s.rows|] == f.streams
  {
    sts := LayersRun(net, 0, s.rows, net.embed(id));
  }

  function Feed(net: Net, s: KvState, ids: seq<int>): Fed
    decreases |ids|
  {
    if ids == [] then Fed(true, s)
    else
      var f := Step(net, s, ids[0]);
      var g := Feed(net, f.s, ids[1..]);
      Fed(f.ok && g.ok, g.s)
  }

  /** What a cold prefill of ids leaves. */
  function Cold(net: Net, ids: seq<int>): Fed {
    Feed(net, Empty(net), ids)
  }

  /** Every layer holds one row per position. */
  predicate Square(net: Net, s: KvState) {
    |s.rows| == net.layers && forall l :: 0 <= l < |s.rows| ==> |s.rows[l]| == s.pos
  }

  // ---------------------------------------------------------------------------------------------
  // Layer-major order: one prefill window
  // ---------------------------------------------------------------------------------------------

  datatype PassOut = PassOut(ok: bool, rows: seq<Row>, xs: seq<Vec>)

  /** Layer l on the tokens of a window, first token first. */
  function LayerPass(net: Net, l: nat, rows: seq<Row>, xs: seq<Vec>): PassOut
    decreases |xs|
  {
    if xs == [] then PassOut(true, rows, [])
    else
      var o := Layer(net, l, rows, xs[0]);
      var p := LayerPass(net, l, rows + [o.row], xs[1..]);
      PassOut(o.ok && p.ok, p.rows, [o.st] + p.xs)
  }

  datatype WindowOut = WindowOut(ok: bool, rows: seq<seq<Row>>, xs: seq<Vec>)

  /** A whole window through layers l, l+1, ..., finishing each layer before the next. */
  function LayerMajor(net: Net, l: nat, rows: seq<seq<Row>>, xs: seq<Vec>): WindowOut
    decreases |rows|
  {
    if rows == [] then WindowOut(true, [], xs)
    else
      var p := LayerPass(net, l, rows[0], xs);
      var w := LayerMajor(net, l + 1, rows[1..], p.xs);
      WindowOut(p.ok && w.ok, [p.rows] + w.rows, w.xs)
  }

  /** Where a window stops: the token of the window, and the streams there. */
  datatype Stop = Stop(at: nat, st: Vec)

  /** The first token at which layer l fails. */
  function PassStop(net: Net, l: nat, rows: seq<Row>, xs: seq<Vec>): Stop
    decreases |xs|
  {
    if xs == [] then Stop(0, [])
    else
      var o := Layer(net, l, rows, xs[0]);
      if !o.ok then Stop(0, o.st)
      else
        var p := PassStop(net, l, rows + [o.row], xs[1..]);
        Stop(1 + p.at, p.st)
  }

  /** The first layer at which the window fails, and in it the first token. */
  function MajorStop(net: Net, l: nat, rows: seq<seq<Row>>, xs: seq<Vec>): Stop
    decreases |rows|
  {
    if rows == [] then Stop(0, [])
    else
      var p := LayerPass(net, l, rows[0], xs);
      if p.ok then MajorStop(net, l + 1, rows[1..], p.xs) else PassStop(net, l, rows[0], xs)
  }

  /** A window of one token is a decode step. */
  function WindowStop(net: Net, s: KvState, ids: seq<int>): Stop {
    if |ids| == 1 then Stop(0, StopStreams(net, 0, s.rows, net.embed(ids[0])))
    else MajorStop(net, 0, s.rows, Embedded(net, ids))
  }

  /** Where a prefill in windows of at most `chunk` tokens stops: the position and the streams. */
  function PrefillStop(net: Net, s: KvState, ids: seq<int>, chunk: nat): Stop
    requires chunk > 0
    decreases |ids|
  {
    if ids == [] then Stop(s.pos, s.streams)
    else
      var c := if chunk < |ids| then chunk else |ids|;
      var f := Feed(net, s, ids[..c]);
      if f.ok then PrefillStop(net, f.s, ids[c..], chunk)
      else
        var stop := WindowStop(net, s, ids[..c]);
        Stop(s.pos + stop.at, stop.st)
  }

  function Embedded(net: Net, ids: seq<int>): seq<Vec> {
    seq(|ids|, i requires 0 <= i < |ids| => net.embed(ids[i]))
  }

  // ---------------------------------------------------------------------------------------------
  // Loop interchange
  // ---------------------------------------------------------------------------------------------

  /** Token-major treatment of the first token of a window, layer-major treatment of the others. */
  function TokenThenWindow(net: Net, l: nat, rows: seq<seq<Row>>, x: Vec, xs: seq<Vec>): WindowOut {
    var t := Layers(net, l, rows, x);
    var w := LayerMajor(net, l, t.rows, xs);
    WindowOut(t.ok && w.ok, w.rows, [t.st] + w.xs)
  }

  lemma {:induction false} Interchange(net: Net, l: nat, rows: seq<seq<Row>>, x: Vec, xs: seq<Vec>)
    ensures LayerMajor(net, l, rows, [x] + xs) == TokenThenWindow(net, l, rows, x, xs)
    decreases |rows|
  {
    assert ([x] + xs)[1..] == xs;
    if rows != [] {
      var o := Layer(net, l, rows[0], x);
      var r0 := rows[0] + [o.row];
      var p := LayerPass(net, l, r0, xs);
      Interchange(net, l + 1, rows[1..], o.st, p.xs);
      var t := Layers(net, l + 1, rows[1..], o.st);
      assert ([r0] + t.rows)[1..] == t.rows;
    }
  }

  lemma {:induction false} LayerMajorEmpty(net: Net, l: nat, rows: seq<seq<Row>>)
    ensures LayerMajor(net, l, rows, []) == WindowOut(true, rows, [])
    decreases |rows|
  {
    if rows != [] {
      LayerMajorEmpty(net, l + 1, rows[1..]);
      assert [rows[0]] + rows[1..] == rows;
    }
  }

  /** What a layer-major window leaves: the rows, and the streams of its last token. */
  function WindowState(net: Net, s: KvState, ids: seq<int>): Fed {
    var w := LayerMajor(net, 0, s.rows, Embedded(net, ids));
    Fed(w.ok, KvState(s.pos + |ids|, w.rows, if |w.xs| == 0 then s.streams else w.xs[|w.xs| - 1]))
  }

  lemma EmbeddedCons(net: Net, ids: seq<int>)
    requires ids != []
    ensures Embedded(net, ids) == [net.embed(ids[0])] + Embedded(net, ids[1..])
  {}

  /** A layer-major window of any length leaves exactly what that many decode steps leave. */
  lemma {:induction false} WindowIsSteps(net: Net, s: KvState, ids: seq<int>)
    ensures WindowState(net, s, ids) == Feed(net, s, ids)
    decreases |ids|
  {
    if ids == [] {
      LayerMajorEmpty(net, 0, s.rows);
    } else {
      EmbeddedCons(net, ids);
      Interchange(net, 0, s.rows, net.embed(ids[0]), Embedded(net, ids[1..]));
      WindowIsSteps(net, Step(net, s, ids[0]).s, ids[1..]);
    }
  }

  // ---------------------------------------------------------------------------------------------
  // Feeding is compositional and causal
  // ---------------------------------------------------------------------------------------------

  /** Feeding a then b, with the error of either. */
  function FeedThen(net: Net, s: KvState, a: seq<int>, b: seq<int>): Fed {
    var f := Feed(net, s, a);
    var g := Feed(net, f.s, b);
    Fed(f.ok && g.ok, g.s)
  }

  lemma {:induction false} FeedAppend(net: Net, s: KvState, a: seq<int>, b: seq<int>)
    ensures Feed(net, s, a + b) == FeedThen(net, s, a, b)
    decreases |a|
  {
    if a == [] {
      assert a + b == b;
    } else {
      assert (a + b)[1..] == a[1..] + b;
      FeedAppend(net, Step(net, s, a[0]).s, a[1..], b);
    }
  }

  lemma {:induction false} FeedPos(net: Net, s: KvState, ids: seq<int>)
    ensures Feed(net, s, ids).s.pos == s.pos + |ids|
    decreases |ids|
  {
    if ids != [] {
      FeedPos(net, Step(net, s, ids[0]).s, ids[1..]);
    }
  }

  lemma {:induction false} LayersGrow(net: Net, l: nat, rows: seq<seq<Row>>, st: Vec)
    ensures var t := Layers(net, l, rows, st);
            |t.rows| == |rows| &&
            forall k :: 0 <= k < |rows| ==> |t.rows[k]| == |rows[k]| + 1 && rows[k] <= t.rows[k]
    decreases |rows|
  {
    if rows != [] {
      var o := Layer(net, l, rows[0], st);
      LayersGrow(net, l + 1, rows[1..], o.st);
      var t := Layers(net, l + 1, rows[1..], o.st);
      assert forall k :: 1 <= k < |rows| ==> rows[k] == rows[1..][k - 1];
    }
  }

  /** Feeding more tokens never changes a row already cached. */
  lemma {:induction false} FeedGrows(net: Net, s: KvState, ids: seq<int>)
    requires Square(net, s)
    ensures var s' := Feed(net, s, ids).s;
            Square(net, s') && s'.pos == s.pos + |ids| &&
            forall l :: 0 <= l < net.layers ==> s.rows[l] <= s'.rows[l]
    decreases |ids|
  {
    if ids != [] {
      LayersGrow(net, 0, s.rows, net.embed(ids[0]));
      FeedGrows(net, Step(net, s, ids[0]).s, ids[1..]);
    }
  }

  /**
   Causality: the rows of the first k positions are those of the first k tokens alone, and the rest
   of the prompt continues from there.
   */
  lemma {:induction false} ColdPrefix(net: Net, ids: seq<int>, k: nat)
    requires k <= |ids|
    ensures var full, part := Cold(net, ids), Cold(net, ids[..k]);
            Square(net, full.s) && Square(net, part.s) && full.s.pos == |ids| && part.s.pos == k &&
            (forall l :: 0 <= l < net.layers ==> full.s.rows[l][..k] == part.s.rows[l]) &&
            full == FeedThen(net, Empty(net), ids[..k], ids[k..])
  {
    assert ids[..k] + ids[k..] == ids;
    FeedAppend(net, Empty(net), ids[..k], ids[k..]);
    FeedGrows(net, Empty(net), ids[..k]);
    FeedGrows(net, Cold(net, ids[..k]).s, ids[k..]);
  }
}
