/**
 The file form of a prefix checkpoint. What is written is read back exactly, when every array is
 within the reader's limits and not otherwise; a file of another model is refused.
 */
module CkptBlob {
  import opened Bytes

  /** The bits of a float, or any other 32-bit word. */
  type Word = x: int | 0 <= x < 0x1_0000_0000

  /** A checkpoint: tokens, position, class, and per layer the cached values, indexer keys and gates. */
  datatype Blob = Blob(ids: seq<int>, pos: int, promptEnd: bool, kv: seq<seq<Word>>, keys: seq<seq<Word>>,
                       gates: seq<seq<Word>>, streams: seq<Word>)

  /** The model a file belongs to: its fingerprint and the sizes that are stored. */
  datatype Model = Model(fingerprint: nat, layers: int, width: int, indexWidth: int)

  const MAGIC: seq<Byte> := [0x44, 0x53, 0x56, 0x34, 0x43, 0x4b, 0x31, 0x00]
  const MAX_IDS: nat := 0x100_0000
  const MAX_VEC: nat := 0x400_0000

  predicate Int32(i: int) {
    -0x8000_0000 <= i < 0x8000_0000
  }

  function Unsigned(i: int): Word
    requires Int32(i)
  {
    if i < 0 then i + 0x1_0000_0000 else i
  }

  function Signed(u: int): int {
    if u < 0x8000_0000 then u else u - 0x1_0000_0000
  }

  /** A 32-bit integer as it is written. */
  function Pod(i: int): (s: seq<Byte>)
    requires Int32(i)
    ensures |s| == 4
  {
    Le(Unsigned(i), 4)
  }

  function Words(ws: seq<Word>): (s: seq<Byte>)
    ensures |s| == 4 * |ws|
  {
    if ws == [] then [] else Le(ws[0], 4) + Words(ws[1..])
  }

  function Ints(ids: seq<int>): seq<Word>
    requires AllInt32(ids)
  {
    seq(|ids|, k requires 0 <= k < |ids| => Unsigned(ids[k]))
  }

  predicate Short(v: seq<Word>) {
    |v| < 0x8000_0000
  }

  /** The sizes fit the integers they are stored in, and the layers are those of the model. */
  predicate Storable(m: Model, b: Blob) {
    && m.fingerprint < Power256(8) && 0 <= m.layers && Int32(m.layers) && Int32(m.width) && Int32(m.indexWidth)
    && |b.ids| < 0x8000_0000 && AllInt32(b.ids) && Int32(b.pos) && Short(b.streams)
    && |b.kv| == |b.keys| == |b.gates| == m.layers
    && forall l :: 0 <= l < m.layers ==> Short(b.kv[l]) && Short(b.keys[l]) && Short(b.gates[l])
  }

  /** A counted array, followed by the rest of the file. */
  function Vec(v: seq<Word>, rest: seq<Byte>): seq<Byte>
    requires Short(v)
  {
    Pod(|v|) + (Words(v) + rest)
  }

  /** The layers from l on, followed by the rest. */
  function Layers(m: Model, b: Blob, l: nat, rest: seq<Byte>): seq<Byte>
    requires Storable(m, b) && l <= m.layers
    decreases m.layers - l
  {
    if l == m.layers then rest
    else Vec(b.kv[l], Vec(b.keys[l], Vec(b.gates[l], Layers(m, b, l + 1, rest))))
  }

  function Sizes(m: Model, b: Blob, rest: seq<Byte>): seq<Byte>
    requires Storable(m, b)
  {
    Pod(m.layers) + (Pod(m.width) + (Pod(m.indexWidth) + (Pod(|b.streams|) + rest)))
  }

  function Head(m: Model, b: Blob, rest: seq<Byte>): seq<Byte>
    requires Storable(m, b)
  {
    MAGIC + (Le(m.fingerprint, 8) + (Pod(|b.ids|) + (Words(Ints(b.ids)) +
                                     (Pod(b.pos) + (Pod(if b.promptEnd then 1 else 0) + rest)))))
  }

  /** The file, followed by anything. */
  function File(m: Model, b: Blob, rest: seq<Byte>): seq<Byte>
    requires Storable(m, b)
  {
    Head(m, b, Sizes(m, b, Layers(m, b, 0, Words(b.streams) + rest)))
  }

  /** The reader's limits. */
  predicate WithinLimits(b: Blob) {
    && |b.ids| <= MAX_IDS && |b.streams| <= MAX_IDS
    && (forall l :: 0 <= l < |b.kv| ==> |b.kv[l]| <= MAX_VEC)
    && (forall l :: 0 <= l < |b.keys| ==> |b.keys[l]| <= MAX_VEC)
    && forall l :: 0 <= l < |b.gates| ==> |b.gates[l]| <= MAX_VEC
  }

  /** A position that is not positive is read as the number of tokens. */
  function Reloaded(b: Blob): Blob {
    b.(pos := if b.pos <= 0 then |b.ids| else b.pos)
  }

  // ---------------------------------------------------------------------------------------------
  // Decoding the parts
  // ---------------------------------------------------------------------------------------------

  lemma PodRoundTrip(i: int)
    requires Int32(i)
    ensures Signed(FromLe(Pod(i))) == i
  {
    LeRoundTrip(Unsigned(i), 4);
  }

  function Unword(s: seq<Byte>): Word
    requires |s| == 4
  {
    FromLeBelow(s);
    FromLe(s)
  }

  function Unwords(s: seq<Byte>): seq<Word>
    requires |s| % 4 == 0
  {
    if s == [] then [] else [Unword(s[..4])] + Unwords(s[4..])
  }

  lemma {:induction false} WordsRoundTrip(ws: seq<Word>)
    ensures Unwords(Words(ws)) == ws
  {
    if ws != [] {
      WordsRoundTrip(ws[1..]);
      LeRoundTrip(ws[0], 4);
      var s := Words(ws);
      assert s[..4] == Le(ws[0], 4) && s[4..] == Words(ws[1..]);
    }
  }

  // ---------------------------------------------------------------------------------------------
  // Writing
  // ---------------------------------------------------------------------------------------------

  /** wr_vec */
  method WriteVec(out0: seq<Byte>, v: seq<Word>, ghost rest: seq<Byte>) returns (out: seq<Byte>)
    requires Short(v)
    ensures out + rest == out0 + Vec(v, rest)
  {
    hide Words, Pod;
    out := out0 + Pod(|v|);
    if |v| > 0 {
      out := out + Words(v);
    } else {
      assert Words(v) == [];
    }
    assert out == out0 + Pod(|v|) + Words(v);
  }

  /** ckpt_write_blob: the file of a checkpoint. */
  method WriteBlob(m: Model, b: Blob) returns (out: seq<Byte>)
    requires Storable(m, b)
    ensures out == File(m, b, [])
  {
    hide Words, Pod, Le, Vec, Storable;
    assert 0 <= m.layers == |b.kv| == |b.keys| == |b.gates| by { StorableShape(m, b); }
    ghost var streams := Words(b.streams) + [];
    out := WriteHead(m, b, Sizes(m, b, Layers(m, b, 0, streams)));
    out := WriteSizes(m, b, out, Layers(m, b, 0, streams));
    var l := 0;
    while l < m.layers
      invariant 0 <= l <= m.layers && out + Layers(m, b, l, streams) == File(m, b, [])
    {
      assert Short(b.kv[l]) && Short(b.keys[l]) && Short(b.gates[l]) by { StorableShape(m, b); }
      ghost var next := Layers(m, b, l + 1, streams);
      out := WriteVec(out, b.kv[l], Vec(b.keys[l], Vec(b.gates[l], next)));
      out := WriteVec(out, b.keys[l], Vec(b.gates[l], next));
      out := WriteVec(out, b.gates[l], next);
      l := l + 1;
    }
    out := out + Words(b.streams);
    assert out == out + [];
  }

  lemma StorableShape(m: Model, b: Blob)
    requires Storable(m, b)
    ensures 0 <= m.layers == |b.kv| == |b.keys| == |b.gates|
    ensures forall l :: 0 <= l < m.layers ==> Short(b.kv[l]) && Short(b.keys[l]) && Short(b.gates[l])
  {}

  method WriteHead(m: Model, b: Blob, ghost rest: seq<Byte>) returns (out: seq<Byte>)
    requires Storable(m, b)
    ensures out + rest == Head(m, b, rest)
  {
    hide Words, Pod, Le;
    out := MAGIC;
    out := out + Le(m.fingerprint, 8);
    out := out + Pod(|b.ids|);
    out := out + Words(Ints(b.ids));
    out := out + Pod(b.pos);
    out := out + Pod(if b.promptEnd then 1 else 0);
  }

  method WriteSizes(m: Model, b: Blob, out0: seq<Byte>, ghost rest: seq<Byte>) returns (out: seq<Byte>)
    requires Storable(m, b)
    ensures out + rest == out0 + Sizes(m, b, rest)
  {
    hide Words, Pod, Le;
    out := out0 + Pod(m.layers);
    out := out + Pod(m.width);
    out := out + Pod(m.indexWidth);
    out := out + Pod(|b.streams|);
  }

  class Reader {
    const data: seq<Byte>
    var at: nat

    constructor (data: seq<Byte>)
      ensures Valid() && this.data == data && Rest() == data
    {
      this.data, at := data, 0;
    }

    ghost predicate Valid()
      reads this
    {
      at <= |data|
    }

    ghost function Rest(): seq<Byte>
      reads this
      requires Valid()
    {
      data[at..]
    }

    /** rd_bytes */
    method Take(n: nat, ghost s: seq<Byte>, ghost tail: seq<Byte>) returns (ok: bool, r: seq<Byte>)
      requires Valid()
      modifies this
      ensures Valid() && (ok ==> |r| == n)
      ensures old(Rest()) == s + tail && |s| == n ==> ok && r == s && Rest() == tail
    {
      if n > |data| - at {
        return false, [];
      }
      r := data[at..at + n];
      at := at + n;
      ok := true;
      if data[at - n..] == s + tail && |s| == n {
        assert (s + tail)[..n] == s && (s + tail)[n..] == tail;
      }
    }

    method TakePod(ghost i: int, ghost tail: seq<Byte>) returns (ok: bool, v: int)
      requires Valid()
      modifies this
      ensures Valid()
      ensures Int32(i) && old(Rest()) == Pod(i) + tail ==> ok && v == i && Rest() == tail
    {
      var r;
      ok, r := Take(4, if Int32(i) then Pod(i) else [], tail);
      v := if ok then Signed(FromLe(r)) else 0;
      if Int32(i) {
        PodRoundTrip(i);
      }
    }

    method TakeWords(n: nat, ghost ws: seq<Word>, ghost tail: seq<Byte>) returns (ok: bool, v: seq<Word>)
      requires Valid()
      modifies this
      ensures Valid() && (ok ==> |v| == n)
      ensures |ws| == n && old(Rest()) == Words(ws) + tail ==> ok && v == ws && Rest() == tail
    {
      hide Words, Unwords;
      var r;
      ok, r := Take(4 * n, Words(ws), tail);
      v := if ok then Unwords(r) else [];
      UnwordsLength(r);
      WordsRoundTrip(ws);
    }

    /** rd_vec: a count within the limit, then that many words. */
    method TakeVec(ghost w: seq<Word>, ghost tail: seq<Byte>) returns (ok: bool, v: seq<Word>)
      requires Valid()
      modifies this
      ensures Valid()
      ensures Short(w) && old(Rest()) == Vec(w, tail) ==> (ok <==> |w| <= MAX_VEC) && (ok ==> v == w && Rest() == tail)
    {
      hide Words, Pod;
      var m;
      ok, m := TakePod(|w|, Words(w) + tail);
      if !ok || m < 0 || m > MAX_VEC {
        return false, [];
      }
      ok, v := TakeWords(m, w, tail);
    }

    /** The tokens are 32-bit words read back as signed numbers. */
    method TakeInts(n: nat, ghost ids: seq<int>, ghost tail: seq<Byte>) returns (ok: bool, v: seq<int>)
      requires Valid()
      modifies this
      ensures Valid()
      ensures |ids| == n && AllInt32(ids) && old(Rest()) == Words(Ints(ids)) + tail ==> ok && v == ids && Rest() == tail
    {
      hide Words;
      var ws;
      ok, ws := TakeWords(n, if AllInt32(ids) then Ints(ids) else [], tail);
      v := seq(|ws|, k requires 0 <= k < |ws| => Signed(ws[k]));
      if AllInt32(ids) && ws == Ints(ids) {
        assert v == ids;
      }
    }

    /** MAGIC, fingerprint, tokens, position and class. */
    method TakeHead(m: Model, ghost n: Model, ghost b: Blob, ghost tail: seq<Byte>)
      returns (ok: bool, ids: seq<int>, pos: int, promptEnd: bool)
      requires Valid()
      modifies this
      ensures Valid()
      ensures Storable(n, b) && old(Rest()) == Head(n, b, tail) ==>
                && (ok <==> n.fingerprint == m.fingerprint && |b.ids| <= MAX_IDS)
                && (ok ==> ids == b.ids && pos == b.pos && promptEnd == b.promptEnd && Rest() == tail)
    {
      hide Words, Pod, Ints;
      ghost var (t1, t2, t3, t4, t5) := Tails(n, b, tail);
      ids, pos, promptEnd := [], 0, false;
      var magic, mark, count, end;
      ok, magic := Take(8, MAGIC, t1);
      if !ok || magic != MAGIC {
        return false, ids, pos, promptEnd;
      }
      ok, mark := Take(8, Le(n.fingerprint, 8), t2);
      if n.fingerprint < Power256(8) {
        LeRoundTrip(n.fingerprint, 8);
      }
      if !ok || FromLe(mark) != m.fingerprint {
        return false, ids, pos, promptEnd;
      }
      ok, count := TakePod(|b.ids|, t3);
      if !ok || count < 0 || count > MAX_IDS {
        return false, ids, pos, promptEnd;
      }
      ok, ids := TakeInts(count, b.ids, t4);
      if !ok {
        return;
      }
      ok, pos := TakePod(b.pos, t5);
      if !ok {
        return;
      }
      ok, end := TakePod(if b.promptEnd then 1 else 0, tail);
      promptEnd := end != 0;
    }

    /** The sizes of the model, which must agree, and the length of the streams. */
    method TakeSizes(m: Model, ghost n: Model, ghost b: Blob, ghost tail: seq<Byte>) returns (ok: bool, streams: nat)
      requires Valid()
      modifies this
      ensures Valid()
      ensures Storable(n, b) && old(Rest()) == Sizes(n, b, tail) ==>
                && (ok <==> n.layers == m.layers && n.width == m.width && n.indexWidth == m.indexWidth && |b.streams| <= MAX_IDS)
                && (ok ==> streams == |b.streams| && Rest() == tail)
    {
      hide Pod;
      streams := 0;
      var layers, width, index, count;
      ghost var fits := Storable(n, b);
      ghost var s3 := if fits then Pod(|b.streams|) + tail else [];
      ghost var s2 := if fits then Pod(n.indexWidth) + s3 else [];
      ghost var s1 := if fits then Pod(n.width) + s2 else [];
      ok, layers := TakePod(n.layers, s1);
      if !ok {
        return;
      }
      ok, width := TakePod(n.width, s2);
      if !ok {
        return;
      }
      ok, index := TakePod(n.indexWidth, s3);
      if !ok {
        return;
      }
      ok, count := TakePod(|b.streams|, tail);
      if !ok || layers != m.layers || width != m.width || index != m.indexWidth || count < 0 || count > MAX_IDS {
        return false, streams;
      }
      streams := count;
    }

    /** The three arrays of one layer. */
    method TakeLayer(m: Model, ghost b: Blob, l: nat, ghost tail: seq<Byte>)
      returns (ok: bool, k: seq<Word>, i: seq<Word>, g: seq<Word>)
      requires Valid() && l < m.layers
      modifies this
      ensures Valid()
      ensures Storable(m, b) && old(Rest()) == Layers(m, b, l, tail) ==>
                && (ok <==> |b.kv[l]| <= MAX_VEC && |b.keys[l]| <= MAX_VEC && |b.gates[l]| <= MAX_VEC)
                && (ok ==> k == b.kv[l] && i == b.keys[l] && g == b.gates[l] && Rest() == Layers(m, b, l + 1, tail))
    {
      hide Vec;
      k, i, g := [], [], [];
      ghost var good := Storable(m, b) && Rest() == Layers(m, b, l, tail);
      ghost var next := if good then Layers(m, b, l + 1, tail) else [];
      ok, k := TakeVec(if good then b.kv[l] else [], if good then Vec(b.keys[l], Vec(b.gates[l], next)) else []);
      if !ok {
        return;
      }
      ok, i := TakeVec(if good then b.keys[l] else [], if good then Vec(b.gates[l], next) else []);
      if !ok {
        return;
      }
      ok, g := TakeVec(if good then b.gates[l] else [], next);
    }

    /** Three arrays for every layer. */
    method TakeLayers(m: Model, ghost b: Blob, ghost tail: seq<Byte>)
      returns (ok: bool, kv: seq<seq<Word>>, keys: seq<seq<Word>>, gates: seq<seq<Word>>)
      requires Valid() && m.layers >= 0
      modifies this
      ensures Valid()
      ensures Storable(m, b) && old(Rest()) == Layers(m, b, 0, tail) ==>
                && (ok <==> VecsWithin(b, m.layers))
                && (ok ==> kv == b.kv && keys == b.keys && gates == b.gates && Rest() == tail)
    {
      hide Layers;
      kv, keys, gates := [], [], [];
      ok := true;
      ghost var good := Storable(m, b) && Rest() == Layers(m, b, 0, tail);
      var l := 0;
      while l < m.layers
        invariant 0 <= l <= m.layers && Valid() && ok
        invariant good ==> Rest() == Layers(m, b, l, tail) && VecsWithin(b, l) && kv == b.kv[..l] && keys == b.keys[..l] &&
                           gates == b.gates[..l]
      {
        var k, i, g;
        ok, k, i, g := TakeLayer(m, b, l, tail);
        if !ok {
          return;
        }
        kv, keys, gates := kv + [k], keys + [i], gates + [g];
        l := l + 1;
      }
      if good {
        NoLayersLeft(m, b, tail);
      }
    }

    /**
     ckpt_read_blob. A file that was written for model n is read for model m exactly when the two agree
     and every array is within the limits, and then it gives back the checkpoint.
     */
    method ReadBlob(m: Model, ghost n: Model, ghost b: Blob, ghost tail: seq<Byte>)
      returns (ok: bool, r: Blob)
      requires Valid() && m.layers >= 0
      modifies this
      ensures Valid()
      ensures Storable(n, b) && old(Rest()) == File(n, b, tail) ==>
                && (ok <==> n == m && WithinLimits(b))
                && (ok ==> r == Reloaded(b) && Rest() == tail)
    {
      hide Head, Sizes, Layers, Words, WithinLimits, VecsWithin;
      ghost var fits := Storable(n, b);
      ghost var s3 := Words(b.streams) + tail;
      ghost var s2 := if fits then Layers(n, b, 0, s3) else [];
      ghost var s1 := if fits then Sizes(n, b, s2) else [];
      r := Blob([], 0, false, [], [], [], []);
      LimitsByLayer(n, b);
      var ids, pos, promptEnd;
      ok, ids, pos, promptEnd := TakeHead(m, n, b, s1);
      if !ok {
        return;
      }
      var count;
      ok, count := TakeSizes(m, n, b, s2);
      if !ok {
        return;
      }
      var kv, keys, gates;
      ok, kv, keys, gates := TakeLayers(m, b, s3);
      if !ok {
        return;
      }
      var streams;
      ok, streams := TakeWords(count, b.streams, tail);
      if !ok {
        return;
      }
      r := Blob(ids, if pos <= 0 then |ids| else pos, promptEnd, kv, keys, gates, streams);
    }

    lemma LimitsByLayer(n: Model, b: Blob)
      ensures Storable(n, b) ==> (WithinLimits(b) <==> |b.ids| <= MAX_IDS && |b.streams| <= MAX_IDS && VecsWithin(b, n.layers))
    {}
  }

  predicate AllInt32(ids: seq<int>) {
    forall k :: 0 <= k < |ids| ==> Int32(ids[k])
  }

  predicate VecsWithin(b: Blob, n: nat) {
    forall l :: 0 <= l < n ==>
      && (l < |b.kv| ==> |b.kv[l]| <= MAX_VEC)
      && (l < |b.keys| ==> |b.keys[l]| <= MAX_VEC)
      && (l < |b.gates| ==> |b.gates[l]| <= MAX_VEC)
  }

  /** What is left of a file after each part of its head. */
  ghost function Tails(n: Model, b: Blob, tail: seq<Byte>): (r: (seq<Byte>, seq<Byte>, seq<Byte>, seq<Byte>, seq<Byte>)) {
    if !Storable(n, b) then ([], [], [], [], [])
    else
      var t5 := Pod(if b.promptEnd then 1 else 0) + tail;
      var t4 := Pod(b.pos) + t5;
      var t3 := Words(Ints(b.ids)) + t4;
      var t2 := Pod(|b.ids|) + t3;
      var t1 := Le(n.fingerprint, 8) + t2;
      (t1, t2, t3, t4, t5)
  }

  lemma NoLayersLeft(m: Model, b: Blob, rest: seq<Byte>)
    requires Storable(m, b)
    ensures Layers(m, b, m.layers, rest) == rest
  {}

  lemma {:induction false} UnwordsLength(s: seq<Byte>)
    ensures |s| % 4 == 0 ==> |Unwords(s)| == |s| / 4
    decreases |s|
  {
    if |s| % 4 == 0 && s != [] {
      UnwordsLength(s[4..]);
    }
  }

  /** A checkpoint is written for model n, and the file is read for model m. */
  method WriteAndRead(n: Model, b: Blob, m: Model) returns (ok: bool, r: Blob)
    requires Storable(n, b) && m.layers >= 0
    ensures ok <==> n == m && WithinLimits(b)
    ensures ok ==> r == Reloaded(b)
  {
    hide Storable, WithinLimits, File;
    var bytes := WriteBlob(n, b);
    var reader := new Reader(bytes);
    ok, r := reader.ReadBlob(m, n, b, []);
  }

  /** A checkpoint of 2^24 + 1 tokens, for a model without layers. */
  function LongBlob(): (b: Blob)
    ensures |b.ids| == 0x100_0001 && forall k :: 0 <= k < |b.ids| ==> b.ids[k] == 0
  {
    Blob(seq(0x100_0001, k => 0), 0x100_0001, true, [], [], [], [])
  }

  /** It is written, and the reader refuses the file. */
  method LongBlobIsLost() returns (ok: bool, r: Blob)
    ensures Storable(Model(0, 0, 0, 0), LongBlob()) && !ok
  {
    assert Power256(8) > 0;
    ok, r := WriteAndRead(Model(0, 0, 0, 0), LongBlob(), Model(0, 0, 0, 0));
  }

  // ---------------------------------------------------------------------------------------------
  // The bytes of one file
  // ---------------------------------------------------------------------------------------------

  lemma FourBytes(v: nat)
    ensures Le(v, 4) == [v % 256, v / 256 % 256, v / 256 / 256 % 256, v / 256 / 256 / 256 % 256]
  {
    assert Le(v, 4) == [v % 256] + Le(v / 256, 3);
    assert Le(v / 256, 3) == [v / 256 % 256] + Le(v / 256 / 256, 2);
    assert Le(v / 256 / 256, 2) == [v / 256 / 256 % 256] + Le(v / 256 / 256 / 256, 1);
    assert Le(v / 256 / 256 / 256, 1) == [v / 256 / 256 / 256 % 256] + Le(v / 256 / 256 / 256 / 256, 0);
  }

  const ONE_MODEL: Model := Model(0x0807_0605_0403_0201, 1, 512, 128)
  const ONE_BLOB: Blob := Blob([258], -2, true, [[0x3f80_0000]], [[]], [[7, 0xffff_fffe]], [9])

  const ONE_HEAD: seq<Byte> :=
    [0x44, 0x53, 0x56, 0x34, 0x43, 0x4b, 0x31, 0x00, 1, 2, 3, 4, 5, 6, 7, 8, 1, 0, 0, 0, 2, 1, 0, 0,
     0xfe, 0xff, 0xff, 0xff, 1, 0, 0, 0]
  const ONE_SIZES: seq<Byte> := [1, 0, 0, 0, 0, 2, 0, 0, 128, 0, 0, 0, 1, 0, 0, 0]
  const ONE_LAYER: seq<Byte> :=
    [1, 0, 0, 0, 0, 0, 0x80, 0x3f, 0, 0, 0, 0, 2, 0, 0, 0, 7, 0, 0, 0, 0xfe, 0xff, 0xff, 0xff]

  /** One token, one layer with a value, no indexer key and two gates, one word of streams: the file, byte by byte. */
  lemma OneFile()
    ensures Storable(ONE_MODEL, ONE_BLOB)
    ensures File(ONE_MODEL, ONE_BLOB, []) == ONE_HEAD + ONE_SIZES + ONE_LAYER + [9, 0, 0, 0]
  {
    hide *;
    OneStorable();
    var streams := Words([9]) + [];
    OneWord(9);
    FourBytes(9);
    OneForm();
    OneHead(Sizes(ONE_MODEL, ONE_BLOB, Layers(ONE_MODEL, ONE_BLOB, 0, streams)));
    OneSizes(Layers(ONE_MODEL, ONE_BLOB, 0, streams));
    OneLayer(streams);
  }

  lemma OneForm()
    requires Storable(ONE_MODEL, ONE_BLOB)
    ensures File(ONE_MODEL, ONE_BLOB, []) ==
            Head(ONE_MODEL, ONE_BLOB, Sizes(ONE_MODEL, ONE_BLOB, Layers(ONE_MODEL, ONE_BLOB, 0, Words([9]) + [])))
  {
    hide Head, Sizes, Layers, Words, Storable;
  }

  lemma OneHead(rest: seq<Byte>)
    requires Storable(ONE_MODEL, ONE_BLOB)
    ensures Head(ONE_MODEL, ONE_BLOB, rest) == ONE_HEAD + rest
  {
    hide Le, Head, Storable;
    EightBytes();
    OneHeadForm(rest);
    OnePosition(rest);
    OneToken([0xfe, 0xff, 0xff, 0xff, 1, 0, 0, 0] + rest);
  }

  lemma OneHeadForm(rest: seq<Byte>)
    requires Storable(ONE_MODEL, ONE_BLOB)
    ensures Head(ONE_MODEL, ONE_BLOB, rest) ==
            MAGIC + (Le(0x0807_0605_0403_0201, 8) + (Le(1, 4) + (Le(258, 4) + (Le(0xffff_fffe, 4) + (Le(1, 4) + rest)))))
  {
    hide Le, Storable, Words;
    assert Ints([258]) == [258];
    OneWord(258);
  }

  lemma OnePosition(rest: seq<Byte>)
    ensures Le(0xffff_fffe, 4) + (Le(1, 4) + rest) == [0xfe, 0xff, 0xff, 0xff, 1, 0, 0, 0] + rest
  {
    FourBytes(1);
    FourBytes(0xffff_fffe);
  }

  lemma OneToken(rest: seq<Byte>)
    ensures Le(1, 4) + (Le(258, 4) + rest) == [1, 0, 0, 0, 2, 1, 0, 0] + rest
  {
    FourBytes(1);
    FourBytes(258);
  }

  lemma OneSizes(rest: seq<Byte>)
    requires Storable(ONE_MODEL, ONE_BLOB)
    ensures Sizes(ONE_MODEL, ONE_BLOB, rest) == ONE_SIZES + rest
  {
    hide Le, Storable;
    FourBytes(1);
    FourBytes(512);
    FourBytes(128);
  }

  lemma OneLayer(rest: seq<Byte>)
    requires Storable(ONE_MODEL, ONE_BLOB)
    ensures Layers(ONE_MODEL, ONE_BLOB, 0, rest) == ONE_LAYER + rest
  {
    hide Storable, Vec;
    var gates := Vec([7, 0xffff_fffe], rest);
    OneLayerForm(rest);
    OneVec(rest);
    NoVec(gates);
    OneValue(Vec([], gates));
  }

  lemma OneLayerForm(rest: seq<Byte>)
    requires Storable(ONE_MODEL, ONE_BLOB)
    ensures Layers(ONE_MODEL, ONE_BLOB, 0, rest) == Vec([0x3f80_0000], Vec([], Vec([7, 0xffff_fffe], rest)))
  {
    hide Storable, Vec;
    assert Layers(ONE_MODEL, ONE_BLOB, 1, rest) == rest;
  }

  lemma OneValue(rest: seq<Byte>)
    ensures Vec([0x3f80_0000], rest) == [1, 0, 0, 0, 0, 0, 0x80, 0x3f] + rest
  {
    hide Le, Words;
    FourBytes(1);
    FourBytes(0x3f80_0000);
    OneWord(0x3f80_0000);
  }

  lemma NoVec(rest: seq<Byte>)
    ensures Vec([], rest) == [0, 0, 0, 0] + rest
  {
    hide Le, Words;
    FourBytes(0);
    NoWords();
  }

  lemma OneVec(rest: seq<Byte>)
    ensures Vec([7, 0xffff_fffe], rest) == [2, 0, 0, 0, 7, 0, 0, 0, 0xfe, 0xff, 0xff, 0xff] + rest
  {
    hide Le, Words;
    FourBytes(2);
    FourBytes(7);
    FourBytes(0xffff_fffe);
    TwoWords(7, 0xffff_fffe);
  }

  lemma EightBytes()
    ensures Le(0x0807_0605_0403_0201, 8) == [1, 2, 3, 4, 5, 6, 7, 8]
  {
    FourBytes(0x0807_0605);
    assert Le(0x0807_0605_0403, 6) == [3] + ([4] + Le(0x0807_0605, 4));
    assert Le(0x0807_0605_0403_0201, 8) == [1] + ([2] + Le(0x0807_0605_0403, 6));
  }

  lemma NoWords()
    ensures Words([]) == []
  {}

  lemma OneWord(a: Word)
    ensures Words([a]) == Le(a, 4)
  {}

  lemma TwoWords(a: Word, b: Word)
    ensures Words([a, b]) == Le(a, 4) + Le(b, 4)
  {
    OneWord(b);
  }

  lemma OneStorable()
    ensures Storable(ONE_MODEL, ONE_BLOB)
  {
    assert Power256(8) == 0x1_0000_0000_0000_0000 by {
      assert Power256(4) == 0x1_0000_0000;
      assert Power256(5) == 256 * Power256(4) && Power256(6) == 256 * Power256(5);
      assert Power256(7) == 256 * Power256(6) && Power256(8) == 256 * Power256(7);
    }
  }
}
