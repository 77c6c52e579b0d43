/**
 The entropy-decoding loops of the JPEG decoder: one block, and the blocks of a scan with DC
 prediction per component.
 */
module JpegScan {
  import opened Bytes
  import opened JpegBits
  import opened JpegHuffman
  import opened JpegBlock

  type Table = s: seq<int> | |s| == 64 witness seq(64, i => 0)

  /** A decoded block holds the dequantised coefficients in natural order. */
  predicate Placed(blk: seq<int>, zz: seq<int>, dcValue: int, qt: Table) {
    |blk| == |zz| == 64 && forall j :: 0 <= j < 64 ==>
      Zig(j) < 64 && blk[Zig(j)] == if j == 0 then dcValue * qt[0] else zz[j] * qt[Zig(j)]
  }

  lemma PlaceOne(blk: seq<int>, zz: seq<int>, dcValue: int, qt: Table, k: nat, v: int)
    requires Placed(blk, zz, dcValue, qt) && 0 < k < 64
    ensures Zig(k) < 64 && Placed(blk[Zig(k) := v * qt[Zig(k)]], zz[k := v], dcValue, qt)
  {
    hide Zig;
    forall j | 0 <= j < 64
      ensures Zig(j) < 64 && (Zig(j) == Zig(k) ==> j == k)
    {
      ZigInjective(j, k);
    }
  }

  lemma PlaceNone(dcValue: int, diff: int, qt: Table)
    ensures Placed(seq(64, i => 0)[0 := dcValue * qt[0]], seq(64, i => 0)[0 := diff], dcValue, qt)
  {
    hide Zig;
    ZigIsPath(0);
    forall j | 0 <= j < 64
      ensures Zig(j) < 64 && (Zig(j) == 0 ==> j == 0)
    {
      ZigInjective(j, 0);
    }
  }

  ghost predicate TableOf(h: Huff, c: Coding) {
    ValidCoding(c) && Built(h, c.bits, c.v)
  }

  /** Decode, in the terms of the decoding procedure; after an error nothing more is read. */
  method NextSymbol(h: Huff, b: BitReader, ghost c: Coding) returns (r: Byte)
    requires TableOf(h, c) && b.Valid()
    modifies b`p, b`buf, b`nbits, b`err
    ensures b.Valid() && (old(b.err) ==> b.err)
    ensures !b.err ==> ReadSymbol(c, old(b.Rest())) == Read(true, r, b.Rest())
    ensures b.err && !old(b.err) ==> !ReadSymbol(c, old(b.Rest())).ok
    ensures b.err ==> r == 0
    ensures r == 0 || r in c.v
  {
    hide Symbol, HuffSize, Legal, Built, All, Match, Place;
    ghost var s := b.Rest();
    MatchIsSymbol(c.bits, s);
    r := Decode(h, b, (k: nat) => 0, c.bits, c.v);
  }

  /** The AC loop: zero runs, coefficients, end of block. */
  method DecodeAc(h: Huff, b: BitReader, qt: Table, blk0: seq<int>, dcValue: int, ghost c: Coding, ghost zz0: seq<int>)
    returns (blk: seq<int>)
    requires ValidCoding(c) && TableOf(h, c) && b.Valid() && Placed(blk0, zz0, dcValue, qt)
    modifies b`p, b`buf, b`nbits, b`err
    ensures b.Valid() && (old(b.err) ==> b.err)
    ensures !old(b.err) ==>
              var r := ReadAc(c, old(b.Rest()), 1, zz0);
              r.ok == !b.err && (r.ok ==> b.Rest() == r.rest && Placed(blk, r.zz, dcValue, qt))
  {
    hide TableOf, ReadSymbol, ReadBits, GetBits, Received, ReadAc, Extend, Zig, Placed, BitReader.Rest, ValidCoding, Pow2;
    assert |zz0| == |blk0| == 64 by { PlacedSize(blk0, zz0, dcValue, qt); }
    blk := blk0;
    ghost var r, zz := ReadAc(c, b.Rest(), 1, zz0), zz0;
    var k := 1;
    while k < 64
      invariant k >= 1 && b.Valid() && (old(b.err) ==> b.err) && Placed(blk, zz, dcValue, qt) && |zz| == |blk| == 64
      invariant !b.err ==> ReadAc(c, b.Rest(), k, zz) == r
      invariant !old(b.err) && b.err ==> !r.ok
    {
      ghost var s := b.Rest();
      AcStep(c, s, k, zz);
      var rs := NextSymbol(h, b, c);
      if b.err {
        break;
      }
      ghost var s' := b.Rest();
      var run, size := rs / 16, rs % 16;
      if size == 0 {
        if run == 0 {
          break;
        }
        k := k + 16;
        continue;
      }
      k := k + run;
      if k >= 64 {
        break;
      }
      var v := b.Get(size);
      GotBits(size, s', v, b.Rest(), b.err);
      FewBits(size, s');
      var ac := if v < Pow2(size - 1) then v - (Pow2(size) - 1) else v;
      PlaceOne(blk, zz, dcValue, qt, k, ac);
      ExtendIs(v, size);
      blk, zz := blk[Zig(k) := ac * qt[Zig(k)]], zz[k := ac];
      k := k + 1;
    }
    AcStep(c, b.Rest(), k, zz);
  }

  lemma PlacedSize(blk: seq<int>, zz: seq<int>, dcValue: int, qt: Table)
    requires Placed(blk, zz, dcValue, qt)
    ensures |blk| == |zz| == 64
  {}

  /** One turn of the decoding procedure. */
  lemma AcStep(c: Coding, s: seq<bool>, k: nat, zz: seq<int>)
    requires ValidCoding(c) && |zz| == 64
    ensures var r, rs := ReadAc(c, s, k, zz), ReadSymbol(c, s);
            var run, size := rs.value / 16, rs.value % 16;
            && (k >= 64 ==> r == Block(true, zz, s))
            && (k < 64 && !rs.ok ==> !r.ok && r.zz == zz)
            && (k < 64 && rs.ok && size == 0 && run == 0 ==> r == Block(true, zz, rs.rest))
            && (k < 64 && rs.ok && size == 0 && run != 0 ==> r == ReadAc(c, rs.rest, k + 16, zz))
            && (k < 64 && rs.ok && size != 0 && k + run >= 64 ==> r == Block(true, zz, rs.rest))
            && (k < 64 && rs.ok && size != 0 && k + run < 64 ==>
                  var v := ReadBits(size, rs.rest);
                  if v.ok then r == ReadAc(c, v.rest, k + run + 1, zz[k + run := Extend(v.value, size)]) else !r.ok && r.zz == zz)
  {
    hide ReadSymbol, ReadBits, Extend, ValidCoding;
  }

  /** The next n bits as the reader delivers them. */
  function GetBits(n: nat, s: seq<bool>): Read
    requires n <= 31
  {
    if n <= |s| then Read(true, Received(s, n), s[n..]) else Read(false, 0, s)
  }

  lemma GotBits(n: nat, s: seq<bool>, v: nat, rest: seq<bool>, err: bool)
    requires n <= 31
    ensures !err && n <= |s| && v == Received(s, n) && rest == s[n..] ==> GetBits(n, s) == Read(true, v, rest)
    ensures n > |s| ==> !GetBits(n, s).ok
  {}

  lemma FewBits(n: nat, s: seq<bool>)
    requires n <= 25
    ensures GetBits(n, s) == ReadBits(n, s)
  {
    if n <= |s| {
      ReceivedWhen(s, n);
    }
  }

  lemma ExtendIs(v: nat, size: nat)
    requires size > 0
    ensures Extend(v, size) == if v < Pow2(size - 1) then v - (Pow2(size) - 1) else v
  {}

  /** The sizes of DC differences are those for which the code's shifts are defined. */
  predicate DcDefined(c: Coding) {
    forall i :: 0 <= i < |c.v| ==> c.v[i] <= 30
  }

  /** The DC difference as the reader delivers its bits. */
  ghost function ReceiveDc(c: Coding, s: seq<bool>): (r: Block)
    requires ValidCoding(c) && DcDefined(c)
    ensures |r.zz| == 64
  {
    var none := seq(64, i => 0);
    var t := ReadSymbol(c, s);
    if !t.ok then Block(false, none, s)
    else
      SymbolListed(c, s);
      var v := GetBits(t.value, t.rest);
      if !v.ok then Block(false, none, s) else Block(true, none[0 := Extend(v.value, t.value)], v.rest)
  }

  ghost function ReceiveBlock(dc: Coding, ac: Coding, s: seq<bool>): (r: Block)
    requires ValidCoding(dc) && ValidCoding(ac) && DcDefined(dc)
    ensures |r.zz| == 64
  {
    var d := ReceiveDc(dc, s);
    if d.ok then ReadAc(ac, d.rest, 1, d.zz) else d
  }

  lemma SymbolListed(c: Coding, s: seq<bool>)
    requires ValidCoding(c)
    ensures ReadSymbol(c, s).ok ==> ReadSymbol(c, s).value in c.v
  {
    hide Symbol, HuffSize, Legal, All;
  }

  /** Up to 25 bits the block received is the block that was sent. */
  lemma ReceivedBlock(dc: Coding, ac: Coding, s: seq<bool>)
    requires ValidCoding(dc) && ValidCoding(ac) && DcSizes(dc)
    ensures DcDefined(dc) && ReceiveBlock(dc, ac, s) == ReadBlock(dc, ac, s)
  {
    hide ReadSymbol, ReadAc, ReadBits, GetBits, ValidCoding, Extend;
    var t := ReadSymbol(dc, s);
    if t.ok {
      SymbolListed(dc, s);
      FewBits(t.value, t.rest);
    }
  }

  /** They are at most 25 bits: all bits of such a difference arrive, see JpegBits.ReceivedWhen. */
  predicate DcSizes(c: Coding) {
    forall i :: 0 <= i < |c.v| ==> c.v[i] <= 25
  }

  /** One block: DC difference, prediction, AC coefficients. */
  method DecodeBlock(dcH: Huff, acH: Huff, b: BitReader, qt: Table, pred0: int, ghost dc: Coding, ghost ac: Coding)
    returns (blk: seq<int>, pred: int)
    requires ValidCoding(dc) && TableOf(dcH, dc) && DcDefined(dc) && ValidCoding(ac) && TableOf(acH, ac) && b.Valid()
    modifies b`p, b`buf, b`nbits, b`err
    ensures b.Valid() && (old(b.err) ==> b.err)
    ensures !old(b.err) ==>
              var r := ReceiveBlock(dc, ac, old(b.Rest()));
              r.ok == !b.err &&
              (r.ok ==> b.Rest() == r.rest && pred == pred0 + r.zz[0] && Placed(blk, r.zz, pred, qt))
  {
    hide TableOf, ReadSymbol, ReadBits, GetBits, ReadAc, Extend, Zig, Placed, BitReader.Rest, ValidCoding, Pow2;
    ghost var s := b.Rest();
    var t := NextSymbol(dcH, b, dc);
    ghost var s', zero := b.Rest(), seq(64, i => 0);
    var diff := 0;
    if t > 0 {
      var v := b.Get(t);
      GotBits(t, s', v, b.Rest(), b.err);
      ExtendIs(v, t);
      diff := if v < Pow2(t - 1) then v - (Pow2(t) - 1) else v;
    } else {
      NoBits(s');
    }
    pred := pred0 + diff;
    PlaceNone(pred, diff, qt);
    blk := DecodeAc(acH, b, qt, seq(64, i => 0)[0 := pred * qt[0]], pred, ac, zero[0 := diff]);
    if !old(b.err) {
      KeepsFirst(ac, s, dc);
    }
  }

  lemma NoBits(s: seq<bool>)
    ensures GetBits(0, s) == Read(true, 0, s) && Extend(0, 0) == 0
  {
    assert s[0..] == s && s[0..0] == [];
  }

  /** The AC loop leaves the DC difference alone. */
  lemma KeepsFirst(ac: Coding, s: seq<bool>, dc: Coding)
    requires ValidCoding(ac) && ValidCoding(dc) && DcDefined(dc)
    ensures ReceiveBlock(dc, ac, s).ok ==> ReceiveDc(dc, s).ok && ReceiveBlock(dc, ac, s).zz[0] == ReceiveDc(dc, s).zz[0]
  {
    hide ReceiveDc;
    var d := ReceiveDc(dc, s);
    if d.ok {
      FirstKept(ac, d.rest, 1, d.zz);
    }
  }

  lemma {:induction false} FirstKept(c: Coding, s: seq<bool>, k: nat, zz: seq<int>)
    requires ValidCoding(c) && |zz| == 64 && k >= 1
    ensures ReadAc(c, s, k, zz).zz[0] == zz[0]
    decreases 64 - k
  {
    hide ReadAc, ReadSymbol, ReadBits, Extend, ValidCoding;
    AcStep(c, s, k, zz);
    if k < 64 {
      var rs := ReadSymbol(c, s);
      var run, size := rs.value / 16, rs.value % 16;
      if rs.ok {
        if size == 0 {
          FirstKept(c, rs.rest, k + 16, zz);
        } else if k + run < 64 {
          var v := ReadBits(size, rs.rest);
          FirstKept(c, v.rest, k + run + 1, zz[k + run := Extend(v.value, size)]);
        }
      }
    }
  }

  // ---------------------------------------------------------------------------------------------
  // A scan
  // ---------------------------------------------------------------------------------------------

  /** What a component of the frame uses. */
  datatype Component = Component(dc: Coding, ac: Coding, qt: Table)

  datatype Tables = Tables(dc: Huff, ac: Huff)

  ghost predicate Prepared(comps: seq<Component>, tables: seq<Tables>) {
    |tables| == |comps| && forall c :: 0 <= c < |comps| ==>
      && ValidCoding(comps[c].dc) && ValidCoding(comps[c].ac) && DcSizes(comps[c].dc)
      && TableOf(tables[c].dc, comps[c].dc) && TableOf(tables[c].ac, comps[c].ac)
  }

  /** The blocks can be coded in this order, with DC differences to the block before of the same component. */
  predicate CanCodeScan(comps: seq<Component>, order: seq<nat>, blocks: seq<Table>, pred: seq<int>)
    requires |order| == |blocks| && |pred| == |comps| && forall i :: 0 <= i < |order| ==> order[i] < |comps|
  {
    order == [] ||
    (CanCode(comps[order[0]].dc, comps[order[0]].ac, Differenced(blocks[0], pred[order[0]])) &&
     CanCodeScan(comps, order[1..], blocks[1..], pred[order[0] := blocks[0][0]]))
  }

  function Differenced(zz: Table, pred: int): Table {
    zz[0 := zz[0] - pred]
  }

  function EncodeScan(comps: seq<Component>, order: seq<nat>, blocks: seq<Table>, pred: seq<int>): seq<bool>
    requires |order| == |blocks| && |pred| == |comps| && forall i :: 0 <= i < |order| ==> order[i] < |comps|
    requires CanCodeScan(comps, order, blocks, pred)
  {
    if order == [] then []
    else
      var c := order[0];
      EncodeBlock(comps[c].dc, comps[c].ac, Differenced(blocks[0], pred[c])) +
      EncodeScan(comps, order[1..], blocks[1..], pred[c := blocks[0][0]])
  }

  /** Decodes blocks in scan order until an error. */
  method DecodeScan(b: BitReader, comps: seq<Component>, tables: seq<Tables>, order: seq<nat>, ghost blocks: seq<Table>,
                    ghost tail: seq<bool>) returns (out: seq<seq<int>>)
    requires b.Valid() && !b.err && Prepared(comps, tables)
    requires |order| == |blocks| && forall i :: 0 <= i < |order| ==> order[i] < |comps|
    modifies b`p, b`buf, b`nbits, b`err
    ensures b.Valid()
    ensures CanCodeScan(comps, order, blocks, seq(|comps|, c => 0)) &&
            old(b.Rest()) == EncodeScan(comps, order, blocks, seq(|comps|, c => 0)) + tail ==>
              !b.err && b.Rest() == tail && |out| == |blocks| &&
              forall i :: 0 <= i < |out| ==> Placed(out[i], blocks[i], blocks[i][0], comps[order[i]].qt)
  {
    hide TableOf, ValidCoding, DcSizes, DcDefined, Placed, BitReader.Rest;
    hide EncodeBlock, CanCode, CanCodeScan, ReadBlock, ReceiveBlock;
    out := [];
    var pred := seq(|comps|, c => 0);
    ghost var good := CanCodeScan(comps, order, blocks, pred) && b.Rest() == EncodeScan(comps, order, blocks, pred) + tail;
    var i := 0;
    assert order[0..] == order && blocks[0..] == blocks;
    while i < |order| && !b.err
      invariant 0 <= i <= |order| && b.Valid() && |pred| == |comps|
      invariant good ==> !b.err && CanCodeScan(comps, order[i..], blocks[i..], pred) &&
                         b.Rest() == EncodeScan(comps, order[i..], blocks[i..], pred) + tail && |out| == i
      invariant good ==> forall j :: 0 <= j < i ==> Placed(out[j], blocks[j], blocks[j][0], comps[order[j]].qt)
    {
      var c := order[i];
      ghost var s := b.Rest();
      if good {
        ScanStep(comps, order[i..], blocks[i..], pred, tail);
        assert order[i..][1..] == order[i + 1..] && blocks[i..][1..] == blocks[i + 1..];
      }
      ReceivedBlock(comps[c].dc, comps[c].ac, s);
      var blk, p := DecodeBlock(tables[c].dc, tables[c].ac, b, comps[c].qt, pred[c], comps[c].dc, comps[c].ac);
      if good {
        SamePlace(blk, Differenced(blocks[i], pred[c]), blocks[i], p, comps[c].qt);
      }
      pred := pred[c := p];
      out := out + [blk];
      i := i + 1;
    }
    if good {
      NothingCoded(comps, order[|order|..], blocks[|order|..], pred, tail);
    }
  }

  lemma SamePlace(blk: seq<int>, zz: seq<int>, zz': seq<int>, dcValue: int, qt: Table)
    requires |zz| == |zz'| == 64 && zz[1..] == zz'[1..]
    ensures Placed(blk, zz, dcValue, qt) ==> Placed(blk, zz', dcValue, qt)
  {
    hide Zig;
    assert forall j :: 1 <= j < 64 ==> zz[j] == zz[1..][j - 1] && zz'[j] == zz'[1..][j - 1];
  }

  lemma ScanStep(comps: seq<Component>, order: seq<nat>, blocks: seq<Table>, pred: seq<int>, tail: seq<bool>)
    requires |order| == |blocks| && |pred| == |comps| && forall i :: 0 <= i < |order| ==> order[i] < |comps|
    requires order != [] && CanCodeScan(comps, order, blocks, pred)
    requires ValidCoding(comps[order[0]].dc) && ValidCoding(comps[order[0]].ac)
    ensures var c := order[0];
            CanCodeScan(comps, order[1..], blocks[1..], pred[c := blocks[0][0]]) &&
            ReadBlock(comps[c].dc, comps[c].ac, EncodeScan(comps, order, blocks, pred) + tail) ==
            Block(true, Differenced(blocks[0], pred[c]),
                  EncodeScan(comps, order[1..], blocks[1..], pred[c := blocks[0][0]]) + tail)
  {
    hide EncodeBlock, CanCode, ReadBlock, ValidCoding;
    var c := order[0];
    var next := EncodeScan(comps, order[1..], blocks[1..], pred[c := blocks[0][0]]);
    var first := EncodeBlock(comps[c].dc, comps[c].ac, Differenced(blocks[0], pred[c]));
    Assoc(first, next, tail);
    BlockRoundTrip(comps[c].dc, comps[c].ac, Differenced(blocks[0], pred[c]), next + tail);
  }

  lemma NothingCoded(comps: seq<Component>, order: seq<nat>, blocks: seq<Table>, pred: seq<int>, tail: seq<bool>)
    requires order == [] && blocks == [] && |pred| == |comps| && CanCodeScan(comps, order, blocks, pred)
    ensures EncodeScan(comps, order, blocks, pred) + tail == tail
  {}

  /** A coded scan, stuffed into bytes and followed by anything, is decoded back completely. */
  method DecodeSegment(data: seq<Byte>, comps: seq<Component>, tables: seq<Tables>, order: seq<nat>, ghost blocks: seq<Table>,
                       ghost trailer: seq<Byte>) returns (out: seq<seq<int>>, ok: bool)
    requires Prepared(comps, tables)
    requires |order| == |blocks| && forall i :: 0 <= i < |order| ==> order[i] < |comps|
    ensures CanCodeScan(comps, order, blocks, seq(|comps|, c => 0)) &&
            data == Segment(EncodeScan(comps, order, blocks, seq(|comps|, c => 0))) + trailer ==>
              ok && |out| == |blocks| &&
              forall i :: 0 <= i < |out| ==> Placed(out[i], blocks[i], blocks[i][0], comps[order[i]].qt)
  {
    hide CanCodeScan, EncodeScan, Segment, Placed, Prepared, BytesToBits, Unstuff;
    var b := new BitReader(data);
    ghost var s := b.Rest();
    ghost var tail := [];
    ghost var pred := seq(|comps|, c => 0);
    if CanCodeScan(comps, order, blocks, pred) {
      ghost var code := EncodeScan(comps, order, blocks, pred);
      SegmentBits(code, trailer);
      if code <= s {
        tail := s[|code|..];
        assert s == code + tail;
      }
    }
    out := DecodeScan(b, comps, tables, order, blocks, tail);
    ok := !b.err;
  }
}
