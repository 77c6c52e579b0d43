/**
 Checkpoint files and the cache together: what a snapshot looks like in the file's flat arrays, that a
 directory of files written by one engine is read back as sound entries, and that files of an engine
 with other weights and the same sizes need not be.
 */
module Dsv4Files {
  import opened Results
  import opened Bytes
  import opened Buffers
  import opened Dsv4Net
  import opened Dsv4Slot
  import opened CkptPolicy
  import opened Dsv4Ckpt
  import B = CkptBlob

  type Word = B.Word

  /** The bits of a float. Only values that are some float's survive. */
  datatype Floats = Floats(bits: real -> Word, value: Word -> real)

  predicate Exact(f: Floats, v: Vec) {
    forall i :: 0 <= i < |v| ==> f.value(f.bits(v[i])) == v[i]
  }

  /** The sizes of an engine, from which its fingerprint is computed, and whether it has an indexer. */
  datatype Geometry = Geometry(layers: nat, width: nat, indexed: bool, indexWidth: nat, hash: (nat, nat, nat) -> nat)

  function ModelOf(g: Geometry): B.Model {
    B.Model(g.hash(g.layers, g.width, g.indexWidth), g.layers, g.width, g.indexWidth)
  }

  // ---------------------------------------------------------------------------------------------
  // Rows in flat arrays
  // ---------------------------------------------------------------------------------------------

  /** The first `count` pieces of n values. */
  function Cut(v: Vec, n: nat, count: nat): (vs: seq<Vec>)
    ensures |vs| == count
    decreases count
  {
    if count == 0 then [] else [if n <= |v| then v[..n] else v] + Cut(if n <= |v| then v[n..] else [], n, count - 1)
  }

  lemma {:induction false} CutFlat(vs: seq<Vec>, n: nat)
    requires Even(vs, n)
    ensures Cut(Flat(vs), n, |vs|) == vs
    decreases |vs|
  {
    if vs != [] {
      CutFlat(vs[1..], n);
      assert Flat(vs)[..n] == vs[0] && Flat(vs)[n..] == Flat(vs[1..]);
    }
  }

  function ToWords(f: Floats, v: Vec): seq<Word> {
    seq<Word>(|v|, i requires 0 <= i < |v| => f.bits(v[i]))
  }

  function ToVec(f: Floats, ws: seq<Word>): Vec {
    seq(|ws|, i requires 0 <= i < |ws| => f.value(ws[i]))
  }

  lemma VecBack(f: Floats, v: Vec)
    requires Exact(f, v)
    ensures ToVec(f, ToWords(f, v)) == v
  {}

  lemma {:induction false} FlatExact(f: Floats, vs: seq<Vec>)
    requires forall i :: 0 <= i < |vs| ==> Exact(f, vs[i])
    ensures Exact(f, Flat(vs))
    decreases |vs|
  {
    if vs != [] {
      FlatExact(f, vs[1..]);
    }
  }

  /** A part that a layer does not use is zero in the buffer. */
  function PartOr(part: Option<Vec>, n: nat): Vec {
    if part.Some? then part.value else seq(n, i => 0.0)
  }

  function Values(rows: seq<Row>): seq<Vec> {
    seq(|rows|, i requires 0 <= i < |rows| => rows[i].kv)
  }

  function Keys(rows: seq<Row>, n: nat): seq<Vec> {
    seq(|rows|, i requires 0 <= i < |rows| => PartOr(rows[i].ikey, n))
  }

  function Gates(rows: seq<Row>, n: nat): seq<Vec> {
    seq(|rows|, i requires 0 <= i < |rows| => PartOr(rows[i].igate, n))
  }

  function Zip(values: seq<Vec>, keys: seq<Vec>, gates: seq<Vec>, hasKey: bool, hasGate: bool): seq<Row>
    requires |values| == |keys| == |gates|
  {
    seq(|values|, i requires 0 <= i < |values| =>
      Row(values[i], if hasKey then Some(keys[i]) else None, if hasGate then Some(gates[i]) else None))
  }

  // ---------------------------------------------------------------------------------------------
  // An entry as a file's contents and back
  // ---------------------------------------------------------------------------------------------

  function ToBlob(f: Floats, g: Geometry, e: PrefixCkpt): B.Blob {
    B.Blob(e.ids, e.pos, e.promptEnd,
           seq(|e.rows|, l requires 0 <= l < |e.rows| => ToWords(f, Flat(Values(e.rows[l])))),
           seq(|e.rows|, l requires 0 <= l < |e.rows| => Indexed(f, g, Keys(e.rows[l], g.indexWidth))),
           seq(|e.rows|, l requires 0 <= l < |e.rows| => Indexed(f, g, Gates(e.rows[l], g.indexWidth))),
           ToWords(f, e.streams))
  }

  /** Indexer parts are stored only by an engine that has an indexer. */
  function Indexed(f: Floats, g: Geometry, parts: seq<Vec>): seq<Word> {
    if g.indexed then ToWords(f, Flat(parts)) else []
  }

  /** The rows of layer l, as the engine with these kernels uses the arrays. */
  function RowsOf(f: Floats, g: Geometry, net: Net, b: B.Blob, n: nat, l: nat): seq<Row>
    requires l < |b.kv| == |b.keys| == |b.gates|
  {
    Zip(Cut(ToVec(f, b.kv[l]), g.width, n), Cut(ToVec(f, b.keys[l]), g.indexWidth, n),
        Cut(ToVec(f, b.gates[l]), g.indexWidth, n), net.dsaLive(l), net.dsaLive(l) && net.hasGate(l))
  }

  function OfBlob(f: Floats, g: Geometry, net: Net, b: B.Blob): PrefixCkpt
    requires |b.kv| == |b.keys| == |b.gates|
  {
    var n := if b.pos > 0 then b.pos else 0;
    PrefixCkpt(b.ids, seq(|b.kv|, l requires 0 <= l < |b.kv| => RowsOf(f, g, net, b, n, l)), ToVec(f, b.streams),
               n, b.promptEnd, 0)
  }

  /** The row has the sizes and parts of its layer, and its values are floats. */
  predicate RowFits(f: Floats, g: Geometry, net: Net, l: nat, r: Row) {
    && |r.kv| == g.width && Exact(f, r.kv)
    && (r.ikey.Some? <==> net.dsaLive(l)) && (r.igate.Some? <==> net.dsaLive(l) && net.hasGate(l))
    && (r.ikey.Some? ==> g.indexed && |r.ikey.value| == g.indexWidth && Exact(f, r.ikey.value))
    && (r.igate.Some? ==> g.indexed && |r.igate.value| == g.indexWidth && Exact(f, r.igate.value))
  }

  predicate AllFit(f: Floats, g: Geometry, net: Net, l: nat, rows: seq<Row>) {
    forall i :: 0 <= i < |rows| ==> RowFits(f, g, net, l, rows[i])
  }

  predicate EntryFits(f: Floats, g: Geometry, net: Net, e: PrefixCkpt) {
    && |e.rows| == g.layers && Exact(f, e.streams)
    && forall l :: 0 <= l < |e.rows| ==> |e.rows[l]| == e.pos && AllFit(f, g, net, l, e.rows[l])
  }

  lemma RowsBack(f: Floats, g: Geometry, net: Net, l: nat, rows: seq<Row>)
    requires AllFit(f, g, net, l, rows)
    ensures Cut(ToVec(f, ToWords(f, Flat(Values(rows)))), g.width, |rows|) == Values(rows)
    ensures net.dsaLive(l) ==>
              Cut(ToVec(f, ToWords(f, Flat(Keys(rows, g.indexWidth)))), g.indexWidth, |rows|) == Keys(rows, g.indexWidth)
    ensures net.dsaLive(l) && net.hasGate(l) ==>
              Cut(ToVec(f, ToWords(f, Flat(Gates(rows, g.indexWidth)))), g.indexWidth, |rows|) == Gates(rows, g.indexWidth)
  {
    hide Exact, Flat, Cut, ToVec, ToWords;
    PiecesBack(f, Values(rows), g.width);
    if net.dsaLive(l) {
      PiecesBack(f, Keys(rows, g.indexWidth), g.indexWidth);
      if net.hasGate(l) {
        PiecesBack(f, Gates(rows, g.indexWidth), g.indexWidth);
      }
    }
  }

  lemma PiecesBack(f: Floats, vs: seq<Vec>, n: nat)
    requires Even(vs, n) && forall i :: 0 <= i < |vs| ==> Exact(f, vs[i])
    ensures Cut(ToVec(f, ToWords(f, Flat(vs))), n, |vs|) == vs
  {
    hide Exact, Flat, Cut, ToVec, ToWords, Even;
    FlatExact(f, vs);
    VecBack(f, Flat(vs));
    CutFlat(vs, n);
  }

  /** What a file's contents mean is the entry they were made of. */
  lemma EntryBack(f: Floats, g: Geometry, net: Net, e: PrefixCkpt)
    requires EntryFits(f, g, net, e) && e.pos == |e.ids| && e.ids != []
    ensures OfBlob(f, g, net, B.Reloaded(ToBlob(f, g, e))) == e.(tick := 0)
  {
    hide Exact, Flat, Cut, AllFit;
    var b := ToBlob(f, g, e);
    assert B.Reloaded(b) == b;
    VecBack(f, e.streams);
    forall l | 0 <= l < |e.rows|
      ensures RowsOf(f, g, net, b, e.pos, l) == e.rows[l]
    {
      LayerBack(f, g, net, e, l);
    }
  }

  lemma LayerBack(f: Floats, g: Geometry, net: Net, e: PrefixCkpt, l: nat)
    requires EntryFits(f, g, net, e) && l < |e.rows| && e.pos >= 0
    ensures RowsOf(f, g, net, ToBlob(f, g, e), e.pos, l) == e.rows[l]
  {
    var rows, got := e.rows[l], RowsOf(f, g, net, ToBlob(f, g, e), e.pos, l);
    hide Exact, Flat, Cut, ToVec, ToWords;
    RowsBack(f, g, net, l, rows);
    forall i | 0 <= i < |rows|
      ensures got[i] == rows[i]
    {
      assert RowFits(f, g, net, l, rows[i]);
      assert Values(rows)[i] == rows[i].kv;
    }
  }

  // ---------------------------------------------------------------------------------------------
  // Every sound entry of an engine fits its files
  // ---------------------------------------------------------------------------------------------

  /** The kernels give rows of these sizes, and streams, in floats. */
  ghost predicate KernelsFit(f: Floats, g: Geometry, net: Net) {
    && net.layers == g.layers
    && (forall l: nat, x, at: nat :: RowFits(f, g, net, l, MakeRow(net, l, x, at)))
    && StreamsFit(f, net)
  }

  ghost predicate StreamsFit(f: Floats, net: Net) {
    && Exact(f, net.zeroStreams) && (forall id :: Exact(f, net.embed(id)))
    && forall l: nat, rows, st :: Exact(f, Layer(net, l, rows, st).st)
  }

  predicate LayersFit(f: Floats, g: Geometry, net: Net, l: nat, rows: seq<seq<Row>>) {
    forall j :: 0 <= j < |rows| ==> AllFit(f, g, net, l + j, rows[j])
  }

  lemma {:induction false} LayersKeepFit(f: Floats, g: Geometry, net: Net, l: nat, rows: seq<seq<Row>>, st: Vec)
    requires KernelsFit(f, g, net) && LayersFit(f, g, net, l, rows) && Exact(f, st)
    ensures LayersFit(f, g, net, l, Layers(net, l, rows, st).rows) && Exact(f, Layers(net, l, rows, st).st)
    decreases |rows|
  {
    hide RowFits, Exact, Layer;
    if rows != [] {
      var o := Layer(net, l, rows[0], st);
      LayerFits(f, g, net, l, rows[0], st);
      assert LayersFit(f, g, net, l + 1, rows[1..]) by {
        forall j | 0 <= j < |rows[1..]|
          ensures AllFit(f, g, net, l + 1 + j, rows[1..][j])
        {
          assert rows[1..][j] == rows[j + 1];
        }
      }
      LayersKeepFit(f, g, net, l + 1, rows[1..], o.st);
      assert AllFit(f, g, net, l, rows[0]);
      FitsFirst(f, g, net, l, rows[0] + [o.row], Layers(net, l + 1, rows[1..], o.st).rows);
    }
  }

  lemma LayerFits(f: Floats, g: Geometry, net: Net, l: nat, rows: seq<Row>, st: Vec)
    requires KernelsFit(f, g, net)
    ensures RowFits(f, g, net, l, Layer(net, l, rows, st).row) && Exact(f, Layer(net, l, rows, st).st)
  {
    hide RowFits, Exact;
  }

  lemma FitsFirst(f: Floats, g: Geometry, net: Net, l: nat, first: seq<Row>, rest: seq<seq<Row>>)
    requires AllFit(f, g, net, l, first) && LayersFit(f, g, net, l + 1, rest)
    ensures LayersFit(f, g, net, l, [first] + rest)
  {
    hide AllFit;
    forall j | 0 <= j < |rest| + 1
      ensures AllFit(f, g, net, l + j, ([first] + rest)[j])
    {
      if j > 0 {
        assert AllFit(f, g, net, l + 1 + (j - 1), rest[j - 1]);
      }
    }
  }

  lemma {:induction false} FeedFits(f: Floats, g: Geometry, net: Net, s: KvState, ids: seq<int>)
    requires KernelsFit(f, g, net) && LayersFit(f, g, net, 0, s.rows) && Exact(f, s.streams)
    ensures LayersFit(f, g, net, 0, Feed(net, s, ids).s.rows) && Exact(f, Feed(net, s, ids).s.streams)
    decreases |ids|
  {
    hide LayersFit, Exact, Layers;
    if ids != [] {
      EmbedFits(f, g, net, ids[0]);
      LayersKeepFit(f, g, net, 0, s.rows, net.embed(ids[0]));
      FeedFits(f, g, net, Step(net, s, ids[0]).s, ids[1..]);
    }
  }

  lemma EmbedFits(f: Floats, g: Geometry, net: Net, id: int)
    requires KernelsFit(f, g, net)
    ensures Exact(f, net.embed(id)) && Exact(f, net.zeroStreams)
  {}

  lemma SoundFits(f: Floats, g: Geometry, net: Net, e: PrefixCkpt)
    requires KernelsFit(f, g, net) && Sound(net, e)
    ensures EntryFits(f, g, net, e) && e.pos == |e.ids| && e.ids != []
  {
    hide AllFit, Exact, Feed;
    EmbedFits(f, g, net, 0);
    assert LayersFit(f, g, net, 0, Empty(net).rows) by { EmptyFits(f, g, net); }
    FeedFits(f, g, net, Empty(net), e.ids);
    FeedGrows(net, Empty(net), e.ids);
  }

  lemma EmptyFits(f: Floats, g: Geometry, net: Net)
    ensures LayersFit(f, g, net, 0, Empty(net).rows)
  {}

  // ---------------------------------------------------------------------------------------------
  // A directory
  // ---------------------------------------------------------------------------------------------

  /** The file is one that an engine of this geometry wrote for the entry. */
  ghost predicate FileOf(f: Floats, g: Geometry, e: PrefixCkpt, bytes: seq<Byte>) {
    B.Storable(ModelOf(g), ToBlob(f, g, e)) && bytes == B.File(ModelOf(g), ToBlob(f, g, e), [])
  }

  /** ckpt_save_disk, without the directory: the file of an entry. */
  method Save(f: Floats, g: Geometry, e: PrefixCkpt) returns (bytes: seq<Byte>)
    requires B.Storable(ModelOf(g), ToBlob(f, g, e))
    ensures FileOf(f, g, e, bytes)
  {
    bytes := B.WriteBlob(ModelOf(g), ToBlob(f, g, e));
  }

  /**
   Reads the files of a directory in order and skips what it cannot read. When all files were written by
   an engine of this geometry with these kernels for sound entries, every entry read is one of them and
   sound, and those within the reader's limits are all read.
   */
  method ReadDirectory(f: Floats, g: Geometry, net: Net, files: seq<seq<Byte>>, ghost entries: seq<PrefixCkpt>)
    returns (disk: seq<PrefixCkpt>)
    requires KernelsFit(f, g, net) && AllSound(net, entries) && |files| == |entries|
    requires forall i :: 0 <= i < |files| ==> FileOf(f, g, entries[i], files[i])
    ensures disk == Readable(f, g, entries) && AllSound(net, disk)
  {
    hide Sound, KernelsFit, FileOf, ToBlob, OfBlob, B.WithinLimits;
    disk := [];
    var i := 0;
    while i < |files|
      invariant 0 <= i <= |files| && disk == Readable(f, g, entries[..i]) && AllSound(net, disk)
    {
      assert entries[..i + 1][..i] == entries[..i];
      var ok, e := ReadOne(f, g, net, files[i], entries[i]);
      if ok {
        disk := disk + [e];
      }
      i := i + 1;
    }
    assert entries[..i] == entries;
  }

  /** The entries within the reader's limits, in order. */
  function Readable(f: Floats, g: Geometry, entries: seq<PrefixCkpt>): seq<PrefixCkpt> {
    if entries == [] then []
    else
      var e := entries[|entries| - 1];
      Readable(f, g, entries[..|entries| - 1]) + (if B.WithinLimits(ToBlob(f, g, e)) then [e.(tick := 0)] else [])
  }

  method ReadOne(f: Floats, g: Geometry, net: Net, bytes: seq<Byte>, ghost e: PrefixCkpt) returns (ok: bool, r: PrefixCkpt)
    requires KernelsFit(f, g, net) && Sound(net, e) && FileOf(f, g, e, bytes)
    ensures ok <==> B.WithinLimits(ToBlob(f, g, e))
    ensures ok ==> r == e.(tick := 0) && Sound(net, r)
  {
    hide KernelsFit, B.WithinLimits, B.File, B.Storable, Cold;
    SoundFits(f, g, net, e);
    EntryBack(f, g, net, e);
    var reader := new B.Reader(bytes);
    var b;
    ok, b := reader.ReadBlob(ModelOf(g), ModelOf(g), ToBlob(f, g, e), []);
    if ok {
      r := OfBlob(f, g, net, b);
    } else {
      r := PrefixCkpt([], [], [], 0, false, 0);
    }
  }

  /**
   The checkpointed prefill over a directory of files that an engine of this geometry and these kernels
   wrote: success and the final state are those of a cold prefill.
   */
  method PrefillFromFiles(f: Floats, g: Geometry, e: Engine, net: Net, cfg: CkptConfig, s: Slot, prompt: seq<int>,
                          gp: GenParams, tMax: int, files: seq<seq<Byte>>, ghost entries: seq<PrefixCkpt>)
    returns (ok: bool, reuse: nat)
    requires ValidConfig(cfg) && Shaped(net, cfg.width) && AllSound(net, e.ckpts) && prompt != [] && |prompt| <= tMax
    requires KernelsFit(f, g, net) && AllSound(net, entries) && |files| == |entries| && |s.kv| <= net.layers
    requires forall i :: 0 <= i < |files| ==> FileOf(f, g, entries[i], files[i])
    modifies e, s
    ensures AllSound(net, e.ckpts) && ok == Cold(net, prompt).ok
    ensures ok ==> s.State() == Cold(net, prompt).s && s.lastH == net.pool(s.streams)
  {
    hide Sound, Cold, Shaped, KernelsFit, FileOf;
    var disk := ReadDirectory(f, g, net, files, entries);
    ok, reuse := e.RunPrefill(net, cfg, s, prompt, gp, 0, tMax, disk);
  }

  // ---------------------------------------------------------------------------------------------
  // Other weights
  // ---------------------------------------------------------------------------------------------

  /** One layer that caches and puts out the same number v for every token. */
  ghost predicate Constant(net: Net, v: real) {
    && net.layers == 1 && !net.officialAttn(0) && !net.officialFfn(0) && net.zeroStreams == [v]
    && (forall id :: net.embed(id) == [v])
    && (forall l: nat :: !net.dsaLive(l) && !net.officialAttn(l) && !net.officialFfn(l))
    && (forall l: nat, x, at: nat :: net.kvRow(l, x, at) == [v])
    && (forall l: nat, x :: net.mhcMix(l, x) == [v] && net.ffn(l, x) == Some([v]))
    && forall x, y :: net.addHead(x, y) == x
  }

  method ConstantNet(v: real) returns (net: Net)
    ensures Constant(net, v)
  {
    net := new Net(1, 0, Row([], None, None), [v], (id: int) => [v], (l: nat) => false, (l: nat) => false,
                   (l: nat, b: bool, x: Vec) => Entered(x, Mix([], [])), (x: Vec, y: Vec, mix: Mix) => x,
                   (l: nat, x: Vec) => [v], (x: Vec) => x, (x: Vec, y: Vec) => x, (l: nat, x: Vec, at: nat) => [v],
                   (l: nat) => false, (l: nat) => false, (l: nat, x: Vec) => x, (l: nat, x: Vec) => x,
                   (l: nat, x: Vec, a: seq<Option<Vec>>, b: seq<Option<Vec>>) => [], (l: nat, x: Vec, at: nat, vs: seq<Vec>) => x,
                   (l: nat, x: Vec) => Some([v]), (x: Vec) => x);
  }

  const TWO_FLOATS := Floats((x: real) => if x == 6.0 then 1 else 0, (w: Word) => if w == 1 then 6.0 else 5.0)
  const ONE_WIDE := Geometry(1, 1, false, 0, (a: nat, b: nat, c: nat) => 0)

  /** The entry for the prompt [1] of the engine whose number is v. */
  function EntryOf(v: real): PrefixCkpt {
    PrefixCkpt([1], [[Row([v], None, None)]], [v], 1, true, 0)
  }

  lemma ConstantCold(net: Net, v: real)
    requires Constant(net, v)
    ensures Cold(net, [1]) == Fed(true, KvState(1, [[Row([v], None, None)]], [v]))
  {
    assert Empty(net).rows == [[]];
    FeedOne(net, Empty(net), 1);
    var o := Layer(net, 0, [], [v]);
    assert o == LayerOut(true, Row([v], None, None), [v]);
    assert Layers(net, 1, [[]][1..], [v]) == TokenOut(true, [], [v]);
    assert [[]][0] + [o.row] == [Row([v], None, None)];
  }

  lemma ConstantFits(net: Net, v: real)
    requires Constant(net, v) && (v == 5.0 || v == 6.0)
    ensures KernelsFit(TWO_FLOATS, ONE_WIDE, net)
  {
    assert Exact(TWO_FLOATS, [v]);
    forall l: nat, x, at: nat
      ensures RowFits(TWO_FLOATS, ONE_WIDE, net, l, MakeRow(net, l, x, at))
    {
    }
    forall l: nat, rows, st
      ensures Exact(TWO_FLOATS, Layer(net, l, rows, st).st)
    {
      assert Layer(net, l, rows, st).st == [v];
    }
  }

  /**
   Two engines of one geometry, hence one fingerprint, and a file that the first wrote for a sound entry:
   the second reads it without complaint, and what it reads is not the cold state of its ids there.
   */
  method OtherWeights() returns (first: Net, second: Net, ok: bool, r: PrefixCkpt)
    ensures KernelsFit(TWO_FLOATS, ONE_WIDE, first) && KernelsFit(TWO_FLOATS, ONE_WIDE, second)
    ensures Sound(first, EntryOf(5.0)) && ok && r == EntryOf(5.0) && Insertable(r) && !Sound(second, r)
  {
    first := ConstantNet(5.0);
    second := ConstantNet(6.0);
    ConstantFits(first, 5.0);
    ConstantFits(second, 6.0);
    ConstantCold(first, 5.0);
    ConstantCold(second, 6.0);
    assert [5.0][0] != [6.0][0];
    FitsBoth(second);
    var bytes := Save(TWO_FLOATS, ONE_WIDE, EntryOf(5.0));
    EntryBack(TWO_FLOATS, ONE_WIDE, second, EntryOf(5.0));
    hide ToBlob, OfBlob, B.Storable, B.File, KernelsFit, Sound;
    var reader := new B.Reader(bytes);
    var b;
    ok, b := reader.ReadBlob(ModelOf(ONE_WIDE), ModelOf(ONE_WIDE), ToBlob(TWO_FLOATS, ONE_WIDE, EntryOf(5.0)), []);
    r := OfBlob(TWO_FLOATS, ONE_WIDE, second, b);
  }

  lemma FitsBoth(net: Net)
    requires Constant(net, 6.0)
    ensures EntryFits(TWO_FLOATS, ONE_WIDE, net, EntryOf(5.0))
    ensures B.Storable(ModelOf(ONE_WIDE), ToBlob(TWO_FLOATS, ONE_WIDE, EntryOf(5.0)))
    ensures B.WithinLimits(ToBlob(TWO_FLOATS, ONE_WIDE, EntryOf(5.0)))
  {
    var rows := EntryOf(5.0).rows[0];
    assert Values(rows) == [[5.0]];
    assert Flat([[5.0]]) == [5.0] by { assert [[5.0]][1..] == []; }
    assert B.Int32(1);
  }
}
