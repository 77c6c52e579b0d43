/**
 Huffman tables of the JPEG decoder: the codes that Annex C of ITU-T T.81 assigns, the decoder's
 minimum and maximum codes per length, and the bit-by-bit decoding.
 */
module JpegHuffman {
  import opened Results
  import opened Bytes
  import opened JpegBits

  /** BITS of a table: how many codes there are of each length from 1 to 16. */
  type Counts = s: seq<nat> | |s| == 16 witness seq(16, i => 0)

  /** The number of codes of length at most i. */
  function Total(bits: Counts, i: nat): nat
    requires i <= 16
  {
    if i == 0 then 0 else Total(bits, i - 1) + bits[i - 1]
  }

  /** The number of codes of the table. */
  function All(bits: Counts): nat {
    Total(bits, |bits|)
  }

  lemma {:induction false} TotalGrows(bits: Counts, i: nat, j: nat)
    requires i <= j <= 16
    ensures Total(bits, i) <= Total(bits, j)
  {
    if i < j {
      TotalGrows(bits, i, j - 1);
    }
  }

  // ---------------------------------------------------------------------------------------------
  // Annex C: sizes and codes, symbol after symbol
  // ---------------------------------------------------------------------------------------------

  /** HUFFSIZE (section C.2): the k-th code has the smallest length that covers k + 1 codes. */
  function HuffSize(bits: Counts, k: nat): (i: nat)
    requires k < All(bits)
    ensures 1 <= i <= 16 && Total(bits, i - 1) <= k < Total(bits, i)
  {
    SizeFrom(bits, k, 1)
  }

  function SizeFrom(bits: Counts, k: nat, from: nat): (i: nat)
    requires 1 <= from <= 16 && Total(bits, from - 1) <= k < All(bits)
    ensures from <= i <= 16 && Total(bits, i - 1) <= k < Total(bits, i)
    decreases 16 - from
  {
    if k < Total(bits, from) then from else SizeFrom(bits, k, from + 1)
  }

  lemma SizeUnique(bits: Counts, k: nat, i: nat)
    requires 1 <= i <= 16 && Total(bits, i - 1) <= k < Total(bits, i)
    ensures k < All(bits) && HuffSize(bits, k) == i
  {
    TotalGrows(bits, i, |bits|);
    var s := HuffSize(bits, k);
    if s < i {
      TotalGrows(bits, s, i - 1);
    } else if i < s {
      TotalGrows(bits, i, s - 1);
    }
  }

  /** HUFFCODE (section C.2): one more than the code before it, with a zero appended for every extra bit. */
  function HuffCode(bits: Counts, k: nat): nat
    requires k < All(bits)
  {
    if k == 0 then 0
    else Shl(HuffCode(bits, k - 1) + 1, Extra(bits, k))
  }

  /** How much longer a code is than the one before it. */
  function Extra(bits: Counts, k: nat): nat
    requires 0 < k < All(bits)
  {
    SizesGrow(bits, k);
    HuffSize(bits, k) - HuffSize(bits, k - 1)
  }

  lemma SizesGrow(bits: Counts, k: nat)
    requires 0 < k < All(bits)
    ensures HuffSize(bits, k - 1) <= HuffSize(bits, k)
  {
    var a, b := HuffSize(bits, k - 1), HuffSize(bits, k);
    if b < a {
      TotalGrows(bits, b, a - 1);
    }
  }

  // ---------------------------------------------------------------------------------------------
  // The same codes, length by length
  // ---------------------------------------------------------------------------------------------

  /** The first code of length i. */
  function First(bits: Counts, i: nat): nat
    requires 1 <= i <= 17
  {
    if i == 1 then 0 else 2 * (First(bits, i - 1) + bits[i - 2])
  }

  lemma FirstStep(bits: Counts, i: nat)
    requires 1 <= i <= 16
    ensures First(bits, i + 1) == 2 * (First(bits, i) + bits[i - 1])
  {}

  lemma {:induction false} FirstGrows(bits: Counts, i: nat, j: nat)
    requires 1 <= i < j <= 17
    ensures First(bits, j) >= Shl(First(bits, i) + bits[i - 1], j - i)
    ensures Total(bits, i) == Total(bits, j - 1) ==> First(bits, j) == Shl(First(bits, i) + bits[i - 1], j - i)
  {
    if j > i + 1 {
      FirstGrows(bits, i, j - 1);
      TotalGrows(bits, i, j - 2);
    }
  }

  lemma TotalStep(bits: Counts, i: nat)
    requires 1 <= i <= 16
    ensures Total(bits, i) == Total(bits, i - 1) + bits[i - 1]
  {}

  /** The number that the k-th code has, counted from the first code of its length. */
  function CodeNumber(bits: Counts, k: nat): nat
    requires k < All(bits)
  {
    First(bits, HuffSize(bits, k)) + (k - Total(bits, HuffSize(bits, k) - 1))
  }

  /** The codes of Annex C, k-th by k-th, are the ones numbered upwards from the first of each length. */
  lemma {:induction false} CodeForm(bits: Counts, k: nat)
    requires k < All(bits)
    ensures HuffCode(bits, k) == CodeNumber(bits, k)
  {
    hide Total, First, All, HuffSize;
    var i := HuffSize(bits, k);
    if k == 0 {
      NoneBelow(bits, i);
    } else {
      CodeForm(bits, k - 1);
      var a := HuffSize(bits, k - 1);
      SizesGrow(bits, k);
      if a < i {
        TotalGrows(bits, a, i - 1);
        TotalStep(bits, a);
        FirstGrows(bits, a, i);
      }
    }
  }

  lemma {:induction false} NoneBelow(bits: Counts, i: nat)
    requires 1 <= i <= 16 && Total(bits, i - 1) == 0
    ensures First(bits, i) == 0
  {
    if i > 1 {
      NoneBelow(bits, i - 1);
    }
  }

  /** Every code fits its length, and a code number fits a byte's worth of symbols. */
  predicate Legal(bits: Counts) {
    All(bits) <= 256 && forall i :: 1 <= i <= 16 ==> First(bits, i) + bits[i - 1] <= Pow2(i)
  }

  function CodeBits(bits: Counts, k: nat): (r: seq<bool>)
    requires k < All(bits)
  {
    Bits(HuffCode(bits, k), HuffSize(bits, k))
  }

  predicate StartsWith(bits: Counts, s: seq<bool>, k: nat) {
    k < All(bits) && CodeBits(bits, k) <= s
  }

  lemma FitsLength(bits: Counts, k: nat)
    requires Legal(bits) && k < All(bits)
    ensures CodeNumber(bits, k) < Pow2(HuffSize(bits, k))
  {
    hide Total, First, All, HuffSize, Pow2;
    TotalStep(bits, HuffSize(bits, k));
  }

  /** In a legal table, a bit sequence starts with the k-th code when its first bits have that value. */
  lemma StartsByValue(bits: Counts, s: seq<bool>, k: nat)
    requires Legal(bits) && k < All(bits)
    ensures var i := HuffSize(bits, k);
            StartsWith(bits, s, k) <==> i <= |s| && Value(s[..i]) == CodeNumber(bits, k)
  {
    var i := HuffSize(bits, k);
    CodeForm(bits, k);
    FitsLength(bits, k);
    hide Legal, HuffCode, First, HuffSize, Total, All, CodeNumber;
    PrefixIsValue(s, HuffCode(bits, k), i);
  }

  lemma InTable(bits: Counts, s: seq<bool>, k: nat)
    requires StartsWith(bits, s, k)
    ensures k < All(bits)
  {}

  /** No code is the beginning of another one. */
  lemma PrefixFree(bits: Counts, s: seq<bool>, k: nat, k': nat)
    requires Legal(bits) && StartsWith(bits, s, k) && StartsWith(bits, s, k')
    ensures k == k'
  {
    hide First, Legal, StartsWith, Total, HuffSize, All;
    InTable(bits, s, k);
    InTable(bits, s, k');
    var i, j := HuffSize(bits, k), HuffSize(bits, k');
    StartsByValue(bits, s, k);
    StartsByValue(bits, s, k');
    TotalStep(bits, i);
    TotalStep(bits, j);
    if i < j {
      LongerIsLater(bits, s, i, j);
    } else if j < i {
      LongerIsLater(bits, s, j, i);
    }
  }

  /** A sequence whose first j bits are at least the first code of length j is past the codes of length i < j. */
  lemma LongerIsLater(bits: Counts, s: seq<bool>, i: nat, j: nat)
    requires 1 <= i < j <= 16 && j <= |s| && Value(s[..j]) >= First(bits, j)
    ensures Value(s[..i]) >= First(bits, i) + bits[i - 1]
  {
    var t := s[i..j];
    assert s[..j] == s[..i] + t;
    ValueConcat(s[..i], t);
    ValueBelow(t);
    FirstGrows(bits, i, j);
    if Value(s[..i]) < First(bits, i) + bits[i - 1] {
      ShlGrows(Value(s[..i]), First(bits, i) + bits[i - 1], j - i);
    }
  }

  /** The code that a bit sequence starts with, if any. */
  ghost function Symbol(bits: Counts, s: seq<bool>): Option<nat> {
    if exists k: nat :: StartsWith(bits, s, k) then
      var k: nat :| StartsWith(bits, s, k);
      Some(k)
    else None
  }

  lemma SymbolIs(bits: Counts, s: seq<bool>, k: nat)
    requires Legal(bits) && StartsWith(bits, s, k)
    ensures Symbol(bits, s) == Some(k)
  {
    PrefixFree(bits, s, k, Symbol(bits, s).value);
  }

  // ---------------------------------------------------------------------------------------------
  // The decoder's table
  // ---------------------------------------------------------------------------------------------

  datatype Huff = Huff(minc: seq<int>, maxc: seq<int>, valp: seq<int>, vals: seq<Byte>)

  function Cap(n: nat): nat {
    if n < 256 then n else 256
  }

  predicate Shaped(h: Huff) {
    |h.minc| == |h.maxc| == |h.valp| == 17 && |h.vals| == 256
  }

  /** The entries for length i. */
  predicate BuiltAt(h: Huff, bits: Counts, i: nat)
    requires Shaped(h) && 1 <= i <= 16
  {
    && h.valp[i] == Cap(Total(bits, i - 1))
    && h.minc[i] == (if bits[i - 1] > 0 then First(bits, i) else 0x7fffffff)
    && h.maxc[i] == (if bits[i - 1] > 0 then First(bits, i) + bits[i - 1] - 1 else -1)
  }

  /** The lengths below i are filled in. */
  predicate BuiltBelow(h: Huff, bits: Counts, i: nat)
    requires i <= 17
  {
    Shaped(h) && forall j :: 1 <= j < i ==> BuiltAt(h, bits, j)
  }

  /** Writing the entries of length i leaves the shorter lengths alone. */
  lemma ShorterKept(h: Huff, h': Huff, bits: Counts, i: nat)
    requires i <= 17 && BuiltBelow(h, bits, i) && Shaped(h')
    requires h'.minc[..i] == h.minc[..i] && h'.maxc[..i] == h.maxc[..i] && h'.valp[..i] == h.valp[..i]
    ensures BuiltBelow(h', bits, i)
  {
    hide First, Total;
    forall j | 1 <= j < i
      ensures BuiltAt(h', bits, j)
    {
      assert BuiltAt(h, bits, j);
      assert h'.minc[j] == h'.minc[..i][j] && h'.maxc[j] == h'.maxc[..i][j] && h'.valp[j] == h'.valp[..i][j];
      assert h.minc[j] == h.minc[..i][j] && h.maxc[j] == h.maxc[..i][j] && h.valp[j] == h.valp[..i][j];
    }
  }

  /** What the table must hold for the counts and symbols of a DHT segment. */
  predicate Built(h: Huff, bits: Counts, v: seq<Byte>) {
    && |v| == All(bits)
    && BuiltBelow(h, bits, 17)
    && forall k :: 0 <= k < Cap(|v|) ==> h.vals[k] == v[k]
  }

  lemma LengthBuilt(h: Huff, bits: Counts, v: seq<Byte>, i: nat)
    requires Built(h, bits, v) && 1 <= i <= 16
    ensures Shaped(h) && BuiltAt(h, bits, i)
  {}

  method BuildHuff(bits: Counts, v: seq<Byte>) returns (h: Huff)
    requires |v| == All(bits)
    ensures Built(h, bits, v)
  {
    hide First, Total, BuiltBelow;
    h := Huff(seq(17, i => 0), seq(17, i => 0), seq(17, i => 0), seq(256, i => 0));
    var k: nat, code: nat := 0, 0;
    NoLengths(h, bits);
    var i := 1;
    while i <= 16
      invariant 1 <= i <= 17 && Shaped(h) && k <= |v| && k == Cap(Total(bits, i - 1)) && code == First(bits, i)
      invariant BuiltBelow(h, bits, i)
      invariant forall j :: 0 <= j < k ==> h.vals[j] == v[j]
    {
      ghost var before := h;
      TotalGrows(bits, i, |bits|);
      TotalStep(bits, i);
      h := h.(minc := h.minc[i := code], valp := h.valp[i := k]);
      var vals;
      vals, k := CopySymbols(h.vals, v, k, bits[i - 1]);
      h := h.(vals := vals);
      h := h.(maxc := h.maxc[i := if bits[i - 1] > 0 then code + bits[i - 1] - 1 else -1]);
      FirstStep(bits, i);
      code := (code + bits[i - 1]) * 2;
      if bits[i - 1] == 0 {
        h := h.(minc := h.minc[i := 0x7fffffff]);
      }
      ShorterKept(before, h, bits, i);
      OneLength(h, bits, i);
      i := i + 1;
    }
  }

  /** Copies the next `count` symbols, as far as there are symbols and room. */
  method CopySymbols(vals0: seq<Byte>, v: seq<Byte>, k0: nat, count: nat) returns (vals: seq<Byte>, k: nat)
    requires |vals0| == 256 && k0 <= |v| && k0 <= 256 && forall j :: 0 <= j < k0 ==> vals0[j] == v[j]
    requires k0 < 256 ==> k0 + count <= |v|
    ensures |vals| == 256 && k <= |v| && k == Cap(k0 + count)
    ensures forall j :: 0 <= j < k ==> vals[j] == v[j]
  {
    vals, k := vals0, k0;
    var j := 0;
    while j < count && k < |v| && k < 256
      invariant 0 <= j <= count && k == Cap(k0 + j) && |vals| == 256 && k <= |v| && (k < 256 ==> k == k0 + j)
      invariant forall j :: 0 <= j < k ==> vals[j] == v[j]
    {
      vals := vals[k := v[k0 + j]];
      k := k + 1;
      j := j + 1;
    }
  }

  lemma NoLengths(h: Huff, bits: Counts)
    requires Shaped(h)
    ensures BuiltBelow(h, bits, 1) && First(bits, 1) == 0 && Total(bits, 0) == 0
  {}

  lemma OneLength(h: Huff, bits: Counts, i: nat)
    requires 1 <= i <= 16 && BuiltBelow(h, bits, i) && BuiltAt(h, bits, i)
    ensures BuiltBelow(h, bits, i + 1)
  {}

  /** After i bits without a match: no code of length up to i starts the sequence. */
  ghost predicate NoneUpTo(bits: Counts, s: seq<bool>, i: nat) {
    forall k: nat :: StartsWith(bits, s, k) ==> k < All(bits) && HuffSize(bits, k) > i
  }

  /** What one more bit decides. */
  lemma OneMoreBit(bits: Counts, s: seq<bool>, i: nat, code: nat)
    requires Legal(bits) && 1 <= i <= 16 && i <= |s| && code == Value(s[..i]) && code >= First(bits, i)
    requires NoneUpTo(bits, s, i - 1)
    ensures code < First(bits, i) + bits[i - 1] ==>
              var k := Total(bits, i - 1) + (code - First(bits, i));
              k < Total(bits, i) && k < All(bits) && HuffSize(bits, k) == i && Symbol(bits, s) == Some(k)
    ensures code >= First(bits, i) + bits[i - 1] ==> NoneUpTo(bits, s, i) && 2 * code >= First(bits, i + 1)
  {
    hide Legal, StartsWith, Symbol, HuffSize, Value, All, First, Total;
    TotalStep(bits, i);
    FirstStep(bits, i);
    if code < First(bits, i) + bits[i - 1] {
      var k := Total(bits, i - 1) + (code - First(bits, i));
      SizeUnique(bits, k, i);
      StartsByValue(bits, s, k);
      SymbolIs(bits, s, k);
    } else {
      forall k: nat | StartsWith(bits, s, k)
        ensures k < All(bits) && HuffSize(bits, k) > i
      {
        InTable(bits, s, k);
        StartsByValue(bits, s, k);
      }
    }
  }

  lemma TooLong(bits: Counts, s: seq<bool>, k: nat)
    ensures StartsWith(bits, s, k) ==> k < All(bits) && HuffSize(bits, k) <= 16 && HuffSize(bits, k) <= |s|
  {
    if StartsWith(bits, s, k) {
      assert |CodeBits(bits, k)| == HuffSize(bits, k);
    }
  }

  lemma TooShort(bits: Counts, s: seq<bool>, i: nat)
    requires NoneUpTo(bits, s, i) && (i == 16 || i == |s|)
    ensures Symbol(bits, s) == None
  {
    forall k: nat
      ensures !StartsWith(bits, s, k)
    {
      TooLong(bits, s, k);
    }
  }

  lemma TakeBit(s: seq<bool>, i: nat)
    requires i < |s|
    ensures Value(s[..i + 1]) == 2 * Value(s[..i]) + Value(s[i..][..1])
    ensures s[i..][1..] == s[i + 1..]
  {
    assert s[..i + 1][..i] == s[..i];
    assert s[i..][..1] == [s[i]];
    assert Value([s[i]]) == if s[i] then 1 else 0 by {
      assert [s[i]][..0] == [];
    }
  }

  // ---------------------------------------------------------------------------------------------
  // Decoding
  // ---------------------------------------------------------------------------------------------

  /** From a length on, the shortest one whose codes reach up to the first bits of s. */
  function Match(bits: Counts, s: seq<bool>, from: nat): (r: Option<nat>)
    requires 1 <= from <= 17
    ensures r.Some? ==> from <= r.value <= 16 && r.value <= |s|
    decreases 17 - from
  {
    if from > 16 || from > |s| then None
    else if bits[from - 1] > 0 && Value(s[..from]) < First(bits, from) + bits[from - 1] then Some(from)
    else Match(bits, s, from + 1)
  }

  /** The place in the table of the code of length i that s starts with. */
  function Place(bits: Counts, s: seq<bool>, i: nat): int
    requires 1 <= i <= 16 && i <= |s|
  {
    Total(bits, i - 1) + (Value(s[..i]) - First(bits, i))
  }

  /** Where the code of length i is looked up when it has no place in the table of 256. */
  function PlacePast(bits: Counts, s: seq<bool>, i: nat): nat
    requires 1 <= i <= 16 && i <= |s|
  {
    var at := Cap(Total(bits, i - 1)) + (Value(s[..i]) - First(bits, i));
    if at < 0 then 0 else at
  }

  lemma PlacesAre(bits: Counts, s: seq<bool>, i: nat)
    requires 1 <= i <= 16 && i <= |s| && Total(bits, i - 1) <= Place(bits, s, i)
    ensures var at := Cap(Total(bits, i - 1)) + (Value(s[..i]) - First(bits, i));
            if Place(bits, s, i) < 256 then at == Place(bits, s, i) else at >= 256 && at == PlacePast(bits, s, i)
  {
    hide Total, First, Value;
  }

  /** The code read, if any, has one of the 256 places of the table. */
  predicate InPlaces(bits: Counts, s: seq<bool>) {
    Match(bits, s, 1).Some? ==> Place(bits, s, Match(bits, s, 1).value) < 256
  }

  /** A match at `from` is among the codes of that length, when no shorter length matched. */
  lemma {:induction false} MatchInTable(bits: Counts, s: seq<bool>, from: nat)
    requires 1 <= from <= 17 && (from <= |s| && from <= 16 ==> Value(s[..from]) >= First(bits, from))
    ensures Match(bits, s, from).Some? ==>
              var i := Match(bits, s, from).value;
              Total(bits, i - 1) <= Place(bits, s, i) < Total(bits, i) <= All(bits)
    decreases 17 - from
  {
    hide Value;
    if from <= 16 && from <= |s| {
      TotalStep(bits, from);
      TotalGrows(bits, from, |bits|);
      if !(bits[from - 1] > 0 && Value(s[..from]) < First(bits, from) + bits[from - 1]) {
        FirstStep(bits, from);
        if from < |s| {
          TakeBit(s, from);
        }
        MatchInTable(bits, s, from + 1);
      }
    }
  }

  /** A table of at most 256 codes is never left. */
  lemma StaysInPlaces(bits: Counts, s: seq<bool>)
    requires All(bits) <= 256
    ensures InPlaces(bits, s)
  {
    hide First, Total, Match;
    assert First(bits, 1) == 0 by { NothingRead(bits, s); }
    MatchInTable(bits, s, 1);
  }

  /** In a legal table the match is the one code that s starts with. */
  lemma MatchIsSymbol(bits: Counts, s: seq<bool>)
    requires Legal(bits)
    ensures InPlaces(bits, s)
    ensures Match(bits, s, 1).Some? <==> Symbol(bits, s).Some?
    ensures Match(bits, s, 1).Some? ==>
              var i := Match(bits, s, 1).value;
              Symbol(bits, s) == Some(Place(bits, s, i)) && Place(bits, s, i) < All(bits) &&
              HuffSize(bits, Place(bits, s, i)) == i
  {
    hide Legal, Symbol, First, Match, Place, NoneUpTo, Total, HuffSize;
    NothingRead(bits, s);
    TotalAtMost(bits);
    StaysInPlaces(bits, s);
    MatchFromIsSymbol(bits, s, 1);
  }

  lemma {:induction false} MatchFromIsSymbol(bits: Counts, s: seq<bool>, from: nat)
    requires Legal(bits) && 1 <= from <= 17 && from - 1 <= |s| && NoneUpTo(bits, s, from - 1)
    requires from <= |s| && from <= 16 ==> Value(s[..from]) >= First(bits, from)
    ensures Match(bits, s, from).Some? <==> Symbol(bits, s).Some?
    ensures Match(bits, s, from).Some? ==>
              var i := Match(bits, s, from).value;
              0 <= Place(bits, s, i) < All(bits) && Symbol(bits, s) == Some(Place(bits, s, i)) &&
              HuffSize(bits, Place(bits, s, i)) == i
    decreases 17 - from
  {
    hide Legal, Symbol, First, Value, NoneUpTo, Total, HuffSize, All;
    if from <= 16 && from <= |s| {
      OneMoreBit(bits, s, from, Value(s[..from]));
      if !(bits[from - 1] > 0 && Value(s[..from]) < First(bits, from) + bits[from - 1]) {
        if from < |s| {
          TakeBit(s, from);
        }
        MatchFromIsSymbol(bits, s, from + 1);
      }
    } else {
      TooShort(bits, s, from - 1);
    }
  }

  /**
   Reads one Huffman code, by the shortest length whose codes reach up to the bits read, and fails
   exactly when there is none. In a legal table that is the one code the remaining bits start with,
   see MatchIsSymbol. A place from 256 on is read past the table, where memory holds `past`.
   */
  method Decode(h: Huff, b: BitReader, past: nat -> Byte, ghost bits: Counts, ghost v: seq<Byte>) returns (r: Byte)
    requires Built(h, bits, v) && b.Valid()
    modifies b`p, b`buf, b`nbits, b`err
    ensures b.Valid() && (old(b.err) ==> b.err)
    ensures !old(b.err) ==> (b.err <==> Match(bits, old(b.Rest()), 1).None?)
    ensures b.err ==> r == 0
    ensures !b.err ==>
              var s := old(b.Rest());
              var i := Match(bits, s, 1).value;
              && 0 <= Place(bits, s, i) < |v| && b.Rest() == s[i..]
              && r == if Place(bits, s, i) < 256 then v[Place(bits, s, i)] else past(PlacePast(bits, s, i))
  {
    hide First, Value, Total, BitReader.Rest, Place, PlacePast, Match, Built, BuiltAt, Taken, NoneUpTo;
    ghost var s := b.Rest();
    var code := 0;
    NoneTaken(s);
    var i := 1;
    while i <= 16
      invariant 1 <= i <= 17 && b.Valid() && b.err == old(b.err)
      invariant Taken(s, i - 1, code, b.Rest()) && Match(bits, s, 1) == Match(bits, s, i)
    {
      ghost var rest := b.Rest();
      var bit := NextBit(b);
      if b.err {
        if !old(b.err) {
          NoneLeft(bits, s, i, code, rest);
        }
        return 0;
      }
      BitTaken(s, i - 1, code, rest);
      code := 2 * code + bit;
      LengthBuilt(h, bits, v, i);
      CodeReached(h, bits, s, i, code, b.Rest());
      if h.minc[i] <= h.maxc[i] && code <= h.maxc[i] {
        PlaceFound(h, bits, v, s, i, code, b.Rest());
        var at := h.valp[i] + code - h.minc[i];
        return if at < 256 then h.vals[at] else past(at);
      }
      i := i + 1;
    }
    NoLength(bits, s);
    b.err := true;
    return 0;
  }

  /** Of the bits s the first i are taken, with this value, and the rest is left. */
  ghost predicate Taken(s: seq<bool>, i: nat, code: int, rest: seq<bool>) {
    i <= |s| && code == Value(s[..i]) && rest == s[i..]
  }

  lemma NoneTaken(s: seq<bool>)
    ensures Taken(s, 0, 0, s)
  {}

  lemma BitTaken(s: seq<bool>, i: nat, code: int, rest: seq<bool>)
    requires Taken(s, i, code, rest) && rest != []
    ensures Taken(s, i + 1, 2 * code + Value(rest[..1]), rest[1..])
  {
    hide Value;
    TakeBit(s, i);
  }

  lemma NoneLeft(bits: Counts, s: seq<bool>, i: nat, code: int, rest: seq<bool>)
    requires 1 <= i <= 17 && Taken(s, i - 1, code, rest) && rest == []
    ensures Match(bits, s, i).None?
  {}

  lemma NoLength(bits: Counts, s: seq<bool>)
    ensures Match(bits, s, 17).None?
  {}

  /** The next bit as a number. */
  method NextBit(b: BitReader) returns (bit: nat)
    requires b.Valid()
    modifies b`p, b`buf, b`nbits, b`err
    ensures b.Valid() && (old(b.err) ==> b.err)
    ensures !old(b.err) ==> (b.err <==> old(b.Rest()) == [])
    ensures !b.err ==> old(b.Rest()) != [] && bit == Value(old(b.Rest())[..1]) && b.Rest() == old(b.Rest())[1..]
  {
    hide BitReader.Rest, Value;
    bit := b.Get(1);
  }

  /** The entries for a length decide whether a code of this length is reached. */
  lemma CodeReached(h: Huff, bits: Counts, s: seq<bool>, i: nat, code: int, rest: seq<bool>)
    requires 1 <= i <= 16 && Shaped(h) && BuiltAt(h, bits, i) && Taken(s, i, code, rest)
    ensures Match(bits, s, i) == if h.minc[i] <= h.maxc[i] && code <= h.maxc[i] then Some(i) else Match(bits, s, i + 1)
  {
    hide First, Value, Total;
  }

  /** Where the table is read for a code of length i. */
  lemma PlaceFound(h: Huff, bits: Counts, v: seq<Byte>, s: seq<bool>, i: nat, code: int, rest: seq<bool>)
    requires Built(h, bits, v) && 1 <= i <= 16 && Taken(s, i, code, rest) && Match(bits, s, 1) == Some(i)
    ensures Shaped(h) && i <= |s| && rest == s[i..] && 0 <= Place(bits, s, i) < |v|
    ensures var at := h.valp[i] + code - h.minc[i];
            if Place(bits, s, i) < 256 then 0 <= at < 256 && h.vals[at] == v[Place(bits, s, i)]
            else at >= 256 && at == PlacePast(bits, s, i)
  {
    hide First, Value, Total, Place, PlacePast, Match, NoneUpTo;
    NothingRead(bits, s);
    MatchInTable(bits, s, 1);
    LengthBuilt(h, bits, v, i);
    MatchHasCodes(bits, s, 1);
    PlacesAre(bits, s, i);
  }

  lemma {:induction false} MatchHasCodes(bits: Counts, s: seq<bool>, from: nat)
    requires 1 <= from <= 17
    ensures Match(bits, s, from).Some? ==> bits[Match(bits, s, from).value - 1] > 0
    decreases 17 - from
  {
    hide Value, First;
    if from <= 16 {
      MatchHasCodes(bits, s, from + 1);
    }
  }

  lemma NothingRead(bits: Counts, s: seq<bool>)
    ensures NoneUpTo(bits, s, 0) && First(bits, 1) == 0 && Value(s[..0]) == 0 && s[0..] == s
  {}

  lemma TotalAtMost(bits: Counts)
    requires Legal(bits)
    ensures All(bits) <= 256
  {}
}
