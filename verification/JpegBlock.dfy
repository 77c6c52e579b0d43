/**
 Coefficient blocks of a baseline JPEG scan: the coding of sections F.1.2 and F.2.2 of ITU-T T.81,
 the decoder's block loop, and the proof that it gives back what was coded.
 */
module JpegBlock {
  import opened Arith
  import opened Bytes
  import opened JpegBits
  import opened JpegHuffman

  /** A Huffman table as a DHT segment gives it. */
  datatype Coding = Coding(bits: Counts, v: seq<Byte>)

  predicate ValidCoding(c: Coding) {
    Legal(c.bits) && |c.v| == All(c.bits)
  }

  // ---------------------------------------------------------------------------------------------
  // The standard's coding
  // ---------------------------------------------------------------------------------------------

  /** SSSS of Tables F.1 and F.2: the number of bits of the magnitude. */
  function Category(v: int): nat
    decreases if v < 0 then -v else v
  {
    if v == 0 then 0 else 1 + Category((if v < 0 then -v else v) / 2)
  }

  lemma {:induction false} CategoryBounds(v: int)
    ensures v < Pow2(Category(v)) && -v < Pow2(Category(v))
    ensures v != 0 ==> Category(v) >= 1 && (v >= Pow2(Category(v) - 1) || -v >= Pow2(Category(v) - 1))
    decreases if v < 0 then -v else v
  {
    if v != 0 {
      CategoryBounds((if v < 0 then -v else v) / 2);
    }
  }

  /** The additional bits: the low bits of v, or of v - 1 when v is negative (section F.1.2.1.1). */
  function ExtraValue(v: int): nat {
    CategoryBounds(v);
    if v >= 0 then v else v - 1 + Pow2(Category(v))
  }

  function ExtraBits(v: int): seq<bool> {
    Bits(ExtraValue(v), Category(v))
  }

  function CodeOf(c: Coding, sym: Byte): seq<bool>
    requires ValidCoding(c) && sym in c.v
  {
    CodeBits(c.bits, IndexOf(c.v, sym))
  }

  function IndexOf(v: seq<Byte>, sym: Byte): (k: nat)
    requires sym in v
    ensures k < |v| && v[k] == sym
  {
    if v[0] == sym then 0 else 1 + IndexOf(v[1..], sym)
  }

  /** The number of zero coefficients from position k on. */
  function Run(zz: seq<int>, k: nat): (r: nat)
    requires k <= |zz|
    ensures k + r <= |zz| && (forall j :: k <= j < k + r ==> zz[j] == 0) && (k + r < |zz| ==> zz[k + r] != 0)
    decreases |zz| - k
  {
    if k == |zz| || zz[k] != 0 then 0 else 1 + Run(zz, k + 1)
  }

  /** The coefficients can be coded: every symbol they need is in the tables, and its sizes fit the format. */
  predicate CanCodeDc(c: Coding, diff: int) {
    ValidCoding(c) && Category(diff) <= 16 && Category(diff) in c.v
  }

  predicate CanCodeAc(c: Coding, zz: seq<int>, k: nat)
    requires k <= |zz|
    decreases |zz| - k
  {
    && ValidCoding(c)
    && if k == |zz| then true
       else
         var r := Run(zz, k);
         if k + r == |zz| then 0 in c.v
         else if r >= 16 then 0xf0 in c.v && CanCodeAc(c, zz, k + 16)
         else Category(zz[k + r]) <= 15 && 16 * r + Category(zz[k + r]) in c.v && CanCodeAc(c, zz, k + r + 1)
  }

  function EncodeDc(c: Coding, diff: int): seq<bool>
    requires CanCodeDc(c, diff)
  {
    CodeOf(c, Category(diff)) + ExtraBits(diff)
  }

  /** Zero runs, ZRL and EOB (section F.1.2.2). */
  function EncodeAc(c: Coding, zz: seq<int>, k: nat): seq<bool>
    requires k <= |zz| && CanCodeAc(c, zz, k)
    decreases |zz| - k
  {
    if k == |zz| then []
    else
      var r := Run(zz, k);
      if k + r == |zz| then CodeOf(c, 0)
      else if r >= 16 then CodeOf(c, 0xf0) + EncodeAc(c, zz, k + 16)
      else CodeOf(c, 16 * r + Category(zz[k + r])) + ExtraBits(zz[k + r]) + EncodeAc(c, zz, k + r + 1)
  }

  /** A block of 64 coefficients in zigzag order; the first is the DC difference. */
  predicate CanCode(dc: Coding, ac: Coding, zz: seq<int>) {
    |zz| == 64 && CanCodeDc(dc, zz[0]) && CanCodeAc(ac, zz, 1)
  }

  function EncodeBlock(dc: Coding, ac: Coding, zz: seq<int>): seq<bool>
    requires CanCode(dc, ac, zz)
  {
    EncodeDc(dc, zz[0]) + EncodeAc(ac, zz, 1)
  }

  // ---------------------------------------------------------------------------------------------
  // The decoding procedure on bit sequences
  // ---------------------------------------------------------------------------------------------

  datatype Read = Read(ok: bool, value: nat, rest: seq<bool>)

  ghost function ReadSymbol(c: Coding, s: seq<bool>): (r: Read)
    requires ValidCoding(c)
    ensures r.value < 256
  {
    match Symbol(c.bits, s)
    case None => Read(false, 0, s)
    case Some(k) =>
      if k < All(c.bits) && HuffSize(c.bits, k) <= |s| then Read(true, c.v[k], s[HuffSize(c.bits, k)..]) else Read(false, 0, s)
  }

  function ReadBits(n: nat, s: seq<bool>): Read {
    if n <= |s| then Read(true, Value(s[..n]), s[n..]) else Read(false, 0, s)
  }

  /** EXTEND (section F.2.2.1). */
  function Extend(v: nat, t: nat): int {
    if t == 0 then 0 else if v < Pow2(t - 1) then v - (Pow2(t) - 1) else v
  }

  datatype Block = Block(ok: bool, zz: seq<int>, rest: seq<bool>)

  /** A run size of zero with a nonzero run other than 15 is taken like 15, as the decoder does. */
  ghost function ReadAc(c: Coding, s: seq<bool>, k: nat, zz: seq<int>): (r: Block)
    requires ValidCoding(c) && |zz| == 64
    ensures |r.zz| == 64
    decreases 64 - k
  {
    if k >= 64 then Block(true, zz, s)
    else
      var rs := ReadSymbol(c, s);
      var run, size := rs.value / 16, rs.value % 16;
      if !rs.ok then Block(false, zz, s)
      else if size == 0 then
        if run == 0 then Block(true, zz, rs.rest) else ReadAc(c, rs.rest, k + 16, zz)
      else if k + run >= 64 then Block(true, zz, rs.rest)
      else
        var v := ReadBits(size, rs.rest);
        if !v.ok then Block(false, zz, s)
        else ReadAc(c, v.rest, k + run + 1, zz[k + run := Extend(v.value, size)])
  }

  ghost function ReadDc(c: Coding, s: seq<bool>): (r: Block)
    requires ValidCoding(c)
    ensures |r.zz| == 64
  {
    var none := seq(64, i => 0);
    var t := ReadSymbol(c, s);
    if !t.ok then Block(false, none, s)
    else
      var v := ReadBits(t.value, t.rest);
      if !v.ok then Block(false, none, s) else Block(true, none[0 := Extend(v.value, t.value)], v.rest)
  }

  ghost function ReadBlock(dc: Coding, ac: Coding, s: seq<bool>): (r: Block)
    requires ValidCoding(dc) && ValidCoding(ac)
    ensures |r.zz| == 64
  {
    var d := ReadDc(dc, s);
    if d.ok then ReadAc(ac, d.rest, 1, d.zz) else d
  }

  // ---------------------------------------------------------------------------------------------
  // Decoding undoes coding
  // ---------------------------------------------------------------------------------------------

  lemma ReadCode(c: Coding, sym: Byte, tail: seq<bool>)
    requires ValidCoding(c) && sym in c.v
    ensures ReadSymbol(c, CodeOf(c, sym) + tail) == Read(true, sym, tail)
  {
    hide Legal, All, Symbol, HuffSize;
    var k := IndexOf(c.v, sym);
    var s := CodeOf(c, sym) + tail;
    assert CodeBits(c.bits, k) <= s;
    assert StartsWith(c.bits, s, k);
    SymbolIs(c.bits, s, k);
    assert |CodeBits(c.bits, k)| == HuffSize(c.bits, k);
    assert s[HuffSize(c.bits, k)..] == tail;
  }

  lemma ReadExtra(v: int, tail: seq<bool>)
    ensures var r := ReadBits(Category(v), ExtraBits(v) + tail);
            r.ok && r.rest == tail && Extend(r.value, Category(v)) == v
  {
    var t, x := Category(v), ExtraValue(v);
    CategoryBounds(v);
    assert x < Pow2(t);
    hide Category, Bits, Value;
    ValueOfBits(x, t);
    QuotientIs(Pow2(t), x, 0, x);
    assert (ExtraBits(v) + tail)[..t] == ExtraBits(v);
    assert (ExtraBits(v) + tail)[t..] == tail;
    if t > 0 {
      assert Pow2(t) == 2 * Pow2(t - 1);
    } else {
      assert v == 0;
    }
  }

  lemma Assoc3(a: seq<bool>, b: seq<bool>, c: seq<bool>, d: seq<bool>)
    ensures a + b + c + d == a + (b + (c + d))
  {}

  /** The part of the block below k is what was coded, the rest is still zero. */
  predicate DoneBelow(zz: seq<int>, out: seq<int>, k: nat) {
    |zz| == |out| == 64 && forall j :: 0 <= j < 64 ==> out[j] == if j < k then zz[j] else 0
  }

  lemma {:induction false} AcRoundTrip(c: Coding, zz: seq<int>, k: nat, out: seq<int>, tail: seq<bool>)
    requires k <= 64 && DoneBelow(zz, out, k) && CanCodeAc(c, zz, k)
    ensures ReadAc(c, EncodeAc(c, zz, k) + tail, k, out) == Block(true, zz, tail)
    decreases 64 - k
  {
    hide ReadAc, EncodeAc, CanCodeAc;
    assert k + Run(zz, k) == 64 ==> out == zz;
    if k == 64 || k + Run(zz, k) == 64 {
      EndOfBlock(c, zz, k, out, tail);
    } else if Run(zz, k) >= 16 {
      LongRun(c, zz, k, out, tail);
      AcRoundTrip(c, zz, k + 16, out, tail);
    } else {
      ShortRun(c, zz, k, out, tail);
      AcRoundTrip(c, zz, k + Run(zz, k) + 1, out[k + Run(zz, k) := zz[k + Run(zz, k)]], tail);
    }
  }

  lemma EndOfBlock(c: Coding, zz: seq<int>, k: nat, out: seq<int>, tail: seq<bool>)
    requires k <= 64 == |zz| && |out| == 64 && CanCodeAc(c, zz, k) && (k == 64 || k + Run(zz, k) == 64)
    ensures ReadAc(c, EncodeAc(c, zz, k) + tail, k, out) == Block(true, out, tail)
  {
    hide ReadSymbol, CodeOf, ValidCoding;
    if k == 64 {
      assert EncodeAc(c, zz, k) + tail == tail;
    } else {
      ReadCode(c, 0, tail);
    }
  }

  lemma LongRun(c: Coding, zz: seq<int>, k: nat, out: seq<int>, tail: seq<bool>)
    requires k < 64 == |zz| && |out| == 64 && CanCodeAc(c, zz, k) && k + Run(zz, k) < 64 && Run(zz, k) >= 16
    ensures CanCodeAc(c, zz, k + 16)
    ensures ReadAc(c, EncodeAc(c, zz, k) + tail, k, out) == ReadAc(c, EncodeAc(c, zz, k + 16) + tail, k + 16, out)
  {
    hide ReadSymbol, CodeOf, ValidCoding, Run;
    Assoc(CodeOf(c, 0xf0), EncodeAc(c, zz, k + 16), tail);
    ReadCode(c, 0xf0, EncodeAc(c, zz, k + 16) + tail);
  }

  lemma ShortRun(c: Coding, zz: seq<int>, k: nat, out: seq<int>, tail: seq<bool>)
    requires k < 64 == |zz| && |out| == 64 && CanCodeAc(c, zz, k) && k + Run(zz, k) < 64 && Run(zz, k) < 16
    ensures var p := k + Run(zz, k);
            CanCodeAc(c, zz, p + 1) &&
            ReadAc(c, EncodeAc(c, zz, k) + tail, k, out) == ReadAc(c, EncodeAc(c, zz, p + 1) + tail, p + 1, out[p := zz[p]])
  {
    hide ReadSymbol, ReadBits, Extend, CodeOf, ExtraBits, ValidCoding, Category, Run;
    var r := Run(zz, k);
    ReadCoefficient(c, r, zz[k + r], EncodeAc(c, zz, k + r + 1), tail);
  }

  /** From these bits a symbol for r zeros and t extra bits is read, then these bits with the value v, and the rest is left. */
  ghost predicate CoefficientRead(c: Coding, bits: seq<bool>, r: nat, v: int, t: nat, rest: seq<bool>)
    requires ValidCoding(c)
  {
    var rs := ReadSymbol(c, bits);
    rs.ok && rs.value / 16 == r && rs.value % 16 == t && ExtraRead(rs.rest, v, t, rest)
  }

  ghost predicate ExtraRead(bits: seq<bool>, v: int, t: nat, rest: seq<bool>) {
    var extra := ReadBits(t, bits);
    extra.ok && extra.rest == rest && Extend(extra.value, t) == v
  }

  /** One nonzero coefficient after r < 16 zeros. */
  lemma ReadCoefficient(c: Coding, r: nat, v: int, next: seq<bool>, tail: seq<bool>)
    requires ValidCoding(c) && r < 16 && v != 0 && Category(v) <= 15 && 16 * r + Category(v) in c.v
    ensures Category(v) > 0 &&
            CoefficientRead(c, CodeOf(c, 16 * r + Category(v)) + ExtraBits(v) + next + tail, r, v, Category(v), next + tail)
  {
    hide ReadSymbol, ReadBits, Extend, CodeOf, ExtraBits, ValidCoding, Category;
    Assoc3(CodeOf(c, 16 * r + Category(v)), ExtraBits(v), next, tail);
    ReadCode(c, 16 * r + Category(v), ExtraBits(v) + (next + tail));
    ReadExtra(v, next + tail);
    assert Category(v) > 0 by { CategoryBounds(v); }
    RunSize(r, Category(v));
  }

  lemma RunSize(r: nat, s: nat)
    requires s < 16
    ensures (16 * r + s) / 16 == r && (16 * r + s) % 16 == s
  {}

  /** Every block of coefficients is given back, and nothing after it is touched. */
  lemma BlockRoundTrip(dc: Coding, ac: Coding, zz: seq<int>, tail: seq<bool>)
    requires CanCode(dc, ac, zz)
    ensures ReadBlock(dc, ac, EncodeBlock(dc, ac, zz) + tail) == Block(true, zz, tail)
  {
    hide ReadSymbol, ReadBits, Extend, CodeOf, ExtraBits, ReadAc, EncodeAc, CanCodeAc, Category, ValidCoding;
    var next := EncodeAc(ac, zz, 1);
    var t := Category(zz[0]);
    Assoc3(CodeOf(dc, t), ExtraBits(zz[0]), next, tail);
    ReadCode(dc, t, ExtraBits(zz[0]) + (next + tail));
    ReadExtra(zz[0], next + tail);
    AcRoundTrip(ac, zz, 1, seq(64, i => 0)[0 := zz[0]], tail);
  }

  // ---------------------------------------------------------------------------------------------
  // Zigzag order
  // ---------------------------------------------------------------------------------------------

  /** The zigzag table, in rows of eight. */
  function ZigRow(i: nat): (r: seq<nat>)
    ensures |r| == 8
  {
    match i
    case 0 => [0, 1, 8, 16, 9, 2, 3, 10]
    case 1 => [17, 24, 32, 25, 18, 11, 4, 5]
    case 2 => [12, 19, 26, 33, 40, 48, 41, 34]
    case 3 => [27, 20, 13, 6, 7, 14, 21, 28]
    case 4 => [35, 42, 49, 56, 57, 50, 43, 36]
    case 5 => [29, 22, 15, 23, 30, 37, 44, 51]
    case 6 => [58, 59, 52, 45, 38, 31, 39, 46]
    case _ => [53, 60, 61, 54, 47, 55, 62, 63]
  }

  function Zig(k: nat): nat {
    ZigRow(k / 8)[k % 8]
  }

  /** The step of the zigzag path (Figure 5 of the standard): up-right on even diagonals, down-left on odd ones. */
  function NextZig(n: nat): int {
    var row, col := n / 8, n % 8;
    if (row + col) % 2 == 0 then
      if col == 7 then n + 8 else if row == 0 then n + 1 else n - 7
    else
      if row == 7 then n + 1 else if col == 0 then n + 8 else n + 7
  }

  /** The number of places on the diagonals before the d-th. */
  function Before(d: nat): nat {
    if d <= 7 then [0, 1, 3, 6, 10, 15, 21, 28][d] else if d <= 14 then [36, 43, 49, 54, 58, 61, 63][d - 8] else 64
  }

  /** How far along the path a place is. */
  function Along(n: nat): int {
    var row, col := n / 8, n % 8;
    var d := row + col;
    var step := if d % 2 == 0 then col else row;
    Before(d) + if d <= 7 then step else step - (d - 7)
  }

  lemma RowAlong(i: nat)
    requires i < 8
    ensures forall j :: 0 <= j < 8 ==> ZigRow(i)[j] < 64 && Along(ZigRow(i)[j]) == 8 * i + j
  {
    hide ZigRow, Along;
    if i < 2 {
      RowsAlong01(i);
    } else if i < 4 {
      RowsAlong23(i);
    } else if i < 6 {
      RowsAlong45(i);
    } else {
      RowsAlong67(i);
    }
  }

  lemma RowsAlong01(i: nat)
    requires 0 <= i <= 1
    ensures forall j :: 0 <= j < 8 ==> ZigRow(i)[j] < 64 && Along(ZigRow(i)[j]) == 8 * i + j
  {}

  lemma RowsAlong23(i: nat)
    requires 2 <= i <= 3
    ensures forall j :: 0 <= j < 8 ==> ZigRow(i)[j] < 64 && Along(ZigRow(i)[j]) == 8 * i + j
  {}

  lemma RowsAlong45(i: nat)
    requires 4 <= i <= 5
    ensures forall j :: 0 <= j < 8 ==> ZigRow(i)[j] < 64 && Along(ZigRow(i)[j]) == 8 * i + j
  {}

  lemma RowsAlong67(i: nat)
    requires 6 <= i <= 7
    ensures forall j :: 0 <= j < 8 ==> ZigRow(i)[j] < 64 && Along(ZigRow(i)[j]) == 8 * i + j
  {}

  /** Every place of the 8 x 8 block has its own index. */
  lemma ZigInjective(j: nat, k: nat)
    requires j < 64 && k < 64
    ensures Zig(j) < 64 && (Zig(j) == Zig(k) ==> j == k)
  {
    hide ZigRow, Along;
    RowAlong(j / 8);
    RowAlong(k / 8);
  }

  /** The table is the standard's zigzag path. */
  lemma ZigIsPath(k: nat)
    requires k < 64
    ensures Zig(0) == 0 && (k < 63 ==> Zig(k + 1) == NextZig(Zig(k)))
  {
    var i := k / 8;
    RowPath(i);
    if k % 8 < 7 {
      assert (k + 1) / 8 == i && (k + 1) % 8 == k % 8 + 1;
    }
  }

  lemma RowPath(i: nat)
    requires i < 8
    ensures forall j :: 0 <= j < 7 ==> ZigRow(i)[j + 1] == NextZig(ZigRow(i)[j])
    ensures i < 7 ==> ZigRow(i + 1)[0] == NextZig(ZigRow(i)[7])
  {
    hide ZigRow, NextZig;
    if i < 2 {
      RowPath01(i);
    } else if i < 4 {
      RowPath23(i);
    } else if i < 6 {
      RowPath45(i);
    } else {
      RowPath67(i);
    }
  }

  lemma RowPath01(i: nat)
    requires i < 2
    ensures forall j :: 0 <= j < 7 ==> ZigRow(i)[j + 1] == NextZig(ZigRow(i)[j])
    ensures ZigRow(i + 1)[0] == NextZig(ZigRow(i)[7])
  {}

  lemma RowPath23(i: nat)
    requires 2 <= i < 4
    ensures forall j :: 0 <= j < 7 ==> ZigRow(i)[j + 1] == NextZig(ZigRow(i)[j])
    ensures ZigRow(i + 1)[0] == NextZig(ZigRow(i)[7])
  {}

  lemma RowPath45(i: nat)
    requires 4 <= i < 6
    ensures forall j :: 0 <= j < 7 ==> ZigRow(i)[j + 1] == NextZig(ZigRow(i)[j])
    ensures ZigRow(i + 1)[0] == NextZig(ZigRow(i)[7])
  {}

  lemma RowPath67(i: nat)
    requires 6 <= i < 8
    ensures forall j :: 0 <= j < 7 ==> ZigRow(i)[j + 1] == NextZig(ZigRow(i)[j])
    ensures i < 7 ==> ZigRow(i + 1)[0] == NextZig(ZigRow(i)[7])
  {}
}
