/**
 The int4 group quantiser of the checkpoint converter and the fmt-4 dequantiser of the runtime: every
 weight comes back within half its group's scale.
 */
module Int4 {
  import opened Arith
  import opened RealSum
  import opened Fp4

  function Abs(x: real): real {
    if x < 0.0 then -x else x
  }

  /** Round half to even. */
  function Rint(x: real): int {
    var f := x.Floor;
    var frac := x - f as real;
    if frac < 0.5 then f else if frac > 0.5 then f + 1 else if f % 2 == 0 then f else f + 1
  }

  /** The nearest integer, and the even one of two. */
  lemma RintNear(x: real)
    ensures -0.5 <= Rint(x) as real - x <= 0.5
    ensures Rint(x) as real - x == 0.5 || Rint(x) as real - x == -0.5 ==> Rint(x) % 2 == 0
  {}

  function Clip(q: int, low: int, high: int): int {
    if q < low then low else if q > high then high else q
  }

  // ---------------------------------------------------------------------------------------------
  // The quantiser
  // ---------------------------------------------------------------------------------------------

  /** The padded row: zero beyond its end. */
  function Padded(row: seq<real>, i: nat): real {
    At(row, i)
  }

  /** The largest magnitude of the first n elements of group g. */
  function GroupMax(row: seq<real>, gs: nat, g: nat, n: nat): real {
    if n == 0 then 0.0
    else
      var m, a := GroupMax(row, gs, g, n - 1), Abs(Padded(row, Index(g, gs, n - 1)));
      if a > m then a else m
  }

  function Scale(row: seq<real>, gs: nat, g: nat): (s: real)
    ensures s > 0.0
  {
    var s := GroupMax(row, gs, g, gs) / 7.0;
    if s > 0.00000001 then s else 0.00000001
  }

  /** The quantised element i of a row. */
  function Quant(row: seq<real>, gs: nat, i: nat): int
    requires gs > 0
  {
    QuantWith(Padded(row, i), Scale(row, gs, i / gs))
  }

  function QuantWith(x: real, s: real): int
    requires s > 0.0
  {
    Clip(Rint(x / s), -8, 7)
  }

  lemma {:induction false} GroupMaxBounds(row: seq<real>, gs: nat, g: nat, n: nat, k: nat)
    requires k < n
    ensures Abs(Padded(row, Index(g, gs, k))) <= GroupMax(row, gs, g, n)
  {
    if k < n - 1 {
      GroupMaxBounds(row, gs, g, n - 1, k);
    }
  }

  lemma {:induction false} GroupMaxReached(row: seq<real>, gs: nat, g: nat, n: nat)
    ensures GroupMax(row, gs, g, n) == 0.0 ||
            exists k: nat :: k < n && Abs(Padded(row, Index(g, gs, k))) == GroupMax(row, gs, g, n)
  {
    hide Index, Padded;
    if n > 0 {
      GroupMaxReached(row, gs, g, n - 1);
    }
  }

  /** An element of the row in group g. */
  predicate InGroup(row: seq<real>, gs: nat, g: nat, i: nat)
    requires gs > 0
  {
    i < |row| && i / gs == g
  }

  /**
   The scale is the smallest that fits: seven of it reach every element of the group, and one of them
   exactly, unless it is the smallest scale there is.
   */
  lemma ScaleMeaning(row: seq<real>, gs: nat, g: nat)
    requires gs > 0
    ensures forall i: nat :: InGroup(row, gs, g, i) ==> Abs(row[i]) <= 7.0 * Scale(row, gs, g)
    ensures Scale(row, gs, g) >= 0.00000001
    ensures Scale(row, gs, g) == 0.00000001 || exists i: nat :: InGroup(row, gs, g, i) && Abs(row[i]) == 7.0 * Scale(row, gs, g)
  {
    hide GroupMax;
    forall i: nat | InGroup(row, gs, g, i)
      ensures Abs(row[i]) <= 7.0 * Scale(row, gs, g)
    {
      WithinSeven(row, gs, i);
    }
    GroupMaxReached(row, gs, g, gs);
    if Scale(row, gs, g) > 0.00000001 {
      var k: nat :| k < gs && Abs(Padded(row, Index(g, gs, k))) == GroupMax(row, gs, g, gs);
      QuotientIs(gs, Index(g, gs, k), g, k);
      assert InGroup(row, gs, g, Index(g, gs, k));
    }
  }

  /** Every element of a group is at most seven scales away from zero. */
  lemma WithinSeven(row: seq<real>, gs: nat, i: nat)
    requires gs > 0
    ensures Abs(Padded(row, i)) <= 7.0 * Scale(row, gs, i / gs)
  {
    assert Index(i / gs, gs, i % gs) == i;
    GroupMaxBounds(row, gs, i / gs, gs, i % gs);
  }

  lemma NegativeTimes(e: real, s: real)
    ensures e < 0.0 && s > 0.0 ==> e * s < 0.0
  {}

  lemma Divide(x: real, s: real)
    requires s > 0.0 && Abs(x) <= 7.0 * s
    ensures -7.0 <= x / s <= 7.0 && x / s * s == x
  {
    var y := x / s;
    assert y * s == x;
    Expand(7.0, y, s, 7.0 * s - x);
    Expand(y, -7.0, s, x + 7.0 * s);
    NegativeTimes(7.0 - y, s);
    NegativeTimes(y - -7.0, s);
  }

  lemma RintWithin(y: real)
    requires -7.0 <= y <= 7.0
    ensures -7 <= Rint(y) <= 7
  {}

  /** q scales stand for x up to half a scale. */
  predicate HalfScale(q: int, s: real, x: real) {
    Abs(q as real * s - x) <= s / 2.0
  }

  /** The clipping never acts, and the rounding error is at most half a scale. */
  lemma QuantWithNear(x: real, s: real)
    requires s > 0.0 && Abs(x) <= 7.0 * s
    ensures QuantWith(x, s) == Rint(x / s) && -7 <= QuantWith(x, s) <= 7
    ensures HalfScale(QuantWith(x, s), s, x)
  {
    hide Rint;
    Divide(x, s);
    RintNear(x / s);
    RintWithin(x / s);
    Scaled(Rint(x / s) as real, x / s, x, s);
  }

  /** So it is for every element of every row, in its group. */
  lemma QuantNear(row: seq<real>, gs: nat, i: nat)
    requires gs > 0
    ensures var x, s := Padded(row, i), Scale(row, gs, i / gs);
            Quant(row, gs, i) == Rint(x / s) && -7 <= Quant(row, gs, i) <= 7 && HalfScale(Quant(row, gs, i), s, x)
  {
    hide Scale, Padded, Rint, Abs, QuantWith, HalfScale;
    WithinSeven(row, gs, i);
    QuantWithNear(Padded(row, i), Scale(row, gs, i / gs));
    assert Quant(row, gs, i) == QuantWith(Padded(row, i), Scale(row, gs, i / gs));
  }

  lemma NotNegative(e: real, s: real, p: real)
    requires s > 0.0 && e >= 0.0 && p == e * s
    ensures p >= 0.0
  {}

  lemma HalfTimes(e: real, s: real, p: real)
    requires s > 0.0 && -0.5 <= e <= 0.5 && p == e * s
    ensures -(s / 2.0) <= p <= s / 2.0
  {
    Expand(0.5, e, s, s / 2.0 - p);
    NotNegative(0.5 - e, s, s / 2.0 - p);
    Expand(e, -0.5, s, p + s / 2.0);
    NotNegative(e - -0.5, s, p + s / 2.0);
  }

  lemma Expand(q: real, y: real, s: real, d: real)
    requires d == q * s - y * s
    ensures d == (q - y) * s
  {}

  lemma Scaled(q: real, y: real, x: real, s: real)
    requires s > 0.0 && y * s == x && -0.5 <= q - y <= 0.5
    ensures Abs(q * s - x) <= s / 2.0
  {
    var d := q * s - x;
    Expand(q, y, s, d);
    HalfTimes(q - y, s, d);
  }

  // ---------------------------------------------------------------------------------------------
  // Packing
  // ---------------------------------------------------------------------------------------------

  /** Byte b of a packed row: the even column in the low nibble, the odd one, if there is one, in the high. */
  function PackedByte(row: seq<real>, gs: nat, b: nat): int
    requires gs > 0
  {
    var low := Quant(row, gs, 2 * b) + 8;
    if 2 * b + 1 < |row| then low + 16 * (Quant(row, gs, 2 * b + 1) + 8) else low
  }

  function Code(packed: seq<nat>, I: nat, o: nat, i: nat): int {
    Nibble(ByteAt(packed, Index(o, PackedStride(I), i / 2)), i) - 8
  }

  /** fmt 4: nibble minus eight, times the scale of the group. */
  function Dequant4(packed: seq<nat>, scale: seq<real>, I: nat, gs: nat, o: nat, i: nat): real
    requires gs > 0
  {
    Code(packed, I, o, i) as real * At(scale, Index(o, CeilDiv(I, gs), i / gs))
  }

  lemma QuantWithin(row: seq<real>, gs: nat, i: nat)
    requires gs > 0
    ensures -7 <= Quant(row, gs, i) <= 7
  {
    hide Scale, Padded, Rint, Abs, Quant;
    QuantNear(row, gs, i);
  }

  /** The two nibbles of a byte. */
  lemma TwoNibbles(low: nat, high: nat, i: nat)
    requires low < 16 && high < 16
    ensures Nibble(low, 0) == low && Nibble(low + 16 * high, i) == if i % 2 == 1 then high else low
  {}

  /** The nibble of a packed byte is the quantised value. */
  lemma NibbleOfByte(row: seq<real>, gs: nat, i: nat)
    requires gs > 0 && i < |row|
    ensures PackedByte(row, gs, i / 2) >= 0 && Nibble(PackedByte(row, gs, i / 2), i) == Quant(row, gs, i) + 8
  {
    var b := i / 2;
    QuantWithin(row, gs, 2 * b);
    QuantWithin(row, gs, 2 * b + 1);
    assert i == 2 * b || i == 2 * b + 1;
    hide Quant;
    TwoNibbles(Quant(row, gs, 2 * b) + 8, Quant(row, gs, 2 * b + 1) + 8, i);
    TwoNibbles(Quant(row, gs, 2 * b) + 8, 0, i);
  }

  /** All rows have I columns. */
  predicate Matrix(w: seq<seq<real>>, I: nat) {
    forall o :: 0 <= o < |w| ==> |w[o]| == I
  }

  /** The output for the first rows. */
  ghost predicate Packs(w: seq<seq<real>>, I: nat, gs: nat, rows: nat, packed: seq<nat>, scale: seq<real>)
    requires gs > 0 && rows <= |w|
  {
    && |packed| == rows * PackedStride(I) && |scale| == rows * CeilDiv(I, gs)
    && (forall o: nat, b: nat :: o < rows && b < PackedStride(I) ==>
          ByteAt(packed, Index(o, PackedStride(I), b)) == PackedByte(w[o], gs, b))
    && forall o: nat, g: nat :: o < rows && g < CeilDiv(I, gs) ==>
         At(scale, Index(o, CeilDiv(I, gs), g)) == Scale(w[o], gs, g)
  }

  /** The dequantised element differs from the weight by at most half the scale stored for its group. */
  predicate Near(w: seq<seq<real>>, I: nat, gs: nat, packed: seq<nat>, scale: seq<real>, o: nat, i: nat)
    requires gs > 0 && Matrix(w, I) && o < |w| && i < I
  {
    && At(scale, Index(o, CeilDiv(I, gs), i / gs)) == Scale(w[o], gs, i / gs)
    && Abs(Dequant4(packed, scale, I, gs, o, i) - w[o][i]) <= At(scale, Index(o, CeilDiv(I, gs), i / gs)) / 2.0
  }

  lemma DequantIs(w: seq<seq<real>>, I: nat, gs: nat, packed: seq<nat>, scale: seq<real>, o: nat, i: nat)
    requires gs > 0 && Matrix(w, I) && Packs(w, I, gs, |w|, packed, scale) && o < |w| && i < I
    ensures At(scale, Index(o, CeilDiv(I, gs), i / gs)) == Scale(w[o], gs, i / gs)
    ensures Code(packed, I, o, i) == Quant(w[o], gs, i)
  {
    hide Index, Scale, Quant, PackedByte, Nibble, PackedStride, CeilDiv;
    GroupInRow(I, gs, i);
    ColumnBounds(I, i);
    NibbleOfByte(w[o], gs, i);
  }

  /** Every weight is given back within half the scale of its group, whatever the shape. */
  lemma RoundTrip(w: seq<seq<real>>, I: nat, gs: nat, packed: seq<nat>, scale: seq<real>, o: nat, i: nat)
    requires gs > 0 && Matrix(w, I) && Packs(w, I, gs, |w|, packed, scale) && o < |w| && i < I
    ensures Near(w, I, gs, packed, scale, o, i)
  {
    hide Index, Scale, Quant, PackedByte, Code, CeilDiv, Packs;
    DequantIs(w, I, gs, packed, scale, o, i);
    QuantNear(w[o], gs, i);
    assert Padded(w[o], i) == w[o][i];
  }

  /** In terms of the weights: within a fourteenth of any bound on the group's magnitudes, if that is not tiny. */
  lemma RoundTripNear(w: seq<seq<real>>, I: nat, gs: nat, packed: seq<nat>, scale: seq<real>, o: nat, i: nat, bound: real)
    requires gs > 0 && Matrix(w, I) && Packs(w, I, gs, |w|, packed, scale) && o < |w| && i < I
    requires bound >= 0.00000007 && forall k: nat :: InGroup(w[o], gs, i / gs, k) ==> Abs(w[o][k]) <= bound
    ensures Abs(Dequant4(packed, scale, I, gs, o, i) - w[o][i]) <= bound / 14.0
  {
    hide Scale, Dequant4, Packs;
    RoundTrip(w, I, gs, packed, scale, o, i);
    ScaleMeaning(w[o], gs, i / gs);
  }

  /** Where a code stands: the even columns in the low nibbles of the row's bytes, the odd ones in the high, both plus eight. */
  lemma CodePlace(packed: seq<nat>, I: nat, o: nat, b: nat, low: nat, high: nat)
    requires low < 16 && high < 16 && o * CeilDiv(I, 2) + b < |packed| && packed[o * CeilDiv(I, 2) + b] == low + 16 * high
    ensures Code(packed, I, o, 2 * b) == low - 8 && Code(packed, I, o, 2 * b + 1) == high - 8
  {
    assert 2 * b / 2 == b && (2 * b + 1) / 2 == b;
    TwoNibbles(low, high, 2 * b);
    TwoNibbles(low, high, 2 * b + 1);
  }

  lemma GroupInRow(I: nat, gs: nat, i: nat)
    requires gs > 0 && i < I
    ensures i / gs < CeilDiv(I, gs)
  {
    var q, m := i / gs, I + gs - 1;
    assert i == q * gs + i % gs;
    assert m == (m / gs) * gs + m % gs;
    MulMonotone(m / gs, q, gs);
  }

  // ---------------------------------------------------------------------------------------------
  // The code
  // ---------------------------------------------------------------------------------------------

  /** The low nibbles of a row are assigned first, then the high nibbles are merged in. */
  method PackRow(row: seq<real>, gs: nat) returns (out: seq<nat>)
    requires gs > 0
    ensures |out| == PackedStride(|row|)
    ensures forall b: nat :: b < |out| ==> out[b] == PackedByte(row, gs, b)
  {
    hide Quant;
    out := [];
    var b := 0;
    while b < PackedStride(|row|)
      invariant 0 <= b <= PackedStride(|row|) && |out| == b
      invariant forall k: nat :: k < b ==> out[k] == Quant(row, gs, 2 * k) + 8
    {
      QuantWithin(row, gs, 2 * b);
      out := out + [Quant(row, gs, 2 * b) + 8];
      b := b + 1;
    }
    b := 0;
    while b < |row| / 2
      invariant 0 <= b <= |row| / 2 && |out| == PackedStride(|row|)
      invariant forall k: nat :: k < |out| ==> out[k] == if k < b then PackedByte(row, gs, k) else Quant(row, gs, 2 * k) + 8
    {
      QuantWithin(row, gs, 2 * b + 1);
      out := out[b := out[b] + 16 * (Quant(row, gs, 2 * b + 1) + 8)];
      b := b + 1;
    }
  }

  method Scales(row: seq<real>, gs: nat) returns (s: seq<real>)
    requires gs > 0
    ensures |s| == CeilDiv(|row|, gs) && forall g: nat :: g < |s| ==> s[g] == Scale(row, gs, g)
  {
    hide GroupMax;
    s := [];
    var g := 0;
    while g < CeilDiv(|row|, gs)
      invariant 0 <= g <= CeilDiv(|row|, gs) && |s| == g && forall k: nat :: k < g ==> s[k] == Scale(row, gs, k)
    {
      var amax := LargestMagnitude(row, gs, g);
      s := s + [if amax / 7.0 > 0.00000001 then amax / 7.0 else 0.00000001];
      g := g + 1;
    }
  }

  method LargestMagnitude(row: seq<real>, gs: nat, g: nat) returns (m: real)
    ensures m == GroupMax(row, gs, g, gs)
  {
    m := 0.0;
    var k := 0;
    while k < gs
      invariant 0 <= k <= gs && m == GroupMax(row, gs, g, k)
    {
      var a := Abs(Padded(row, Index(g, gs, k)));
      if a > m {
        m := a;
      }
      k := k + 1;
    }
  }

  /** quant_int4_grouped. */
  method QuantInt4Grouped(w: seq<seq<real>>, I: nat, gs: nat) returns (packed: seq<nat>, scale: seq<real>)
    requires gs > 0 && Matrix(w, I)
    ensures Packs(w, I, gs, |w|, packed, scale)
    ensures forall o: nat, i: nat :: o < |w| && i < I ==> Near(w, I, gs, packed, scale, o, i)
  {
    hide Packs, Dequant4, Scale, PackedByte, Near;
    packed, scale := [], [];
    PacksNothing(w, I, gs);
    var o := 0;
    while o < |w|
      invariant 0 <= o <= |w| && Packs(w, I, gs, o, packed, scale)
    {
      var row := PackRow(w[o], gs);
      var s := Scales(w[o], gs);
      PacksMore(w, I, gs, o, packed, scale, row, s);
      packed, scale := packed + row, scale + s;
      o := o + 1;
    }
    forall o: nat, i: nat | o < |w| && i < I
      ensures Near(w, I, gs, packed, scale, o, i)
    {
      RoundTrip(w, I, gs, packed, scale, o, i);
    }
  }

  lemma PacksNothing(w: seq<seq<real>>, I: nat, gs: nat)
    requires gs > 0
    ensures Packs(w, I, gs, 0, [], [])
  {}

  lemma PacksMore(w: seq<seq<real>>, I: nat, gs: nat, o: nat, packed: seq<nat>, scale: seq<real>, row: seq<nat>, s: seq<real>)
    requires gs > 0 && o < |w| && |w[o]| == I && Packs(w, I, gs, o, packed, scale)
    requires |row| == PackedStride(I) && forall b: nat :: b < |row| ==> row[b] == PackedByte(w[o], gs, b)
    requires |s| == CeilDiv(I, gs) && forall g: nat :: g < |s| ==> s[g] == Scale(w[o], gs, g)
    ensures Packs(w, I, gs, o + 1, packed + row, scale + s)
  {
    hide PackedStride, CeilDiv, PackedByte, Scale, Index;
    var p, n := PackedStride(I), CeilDiv(I, gs);
    NextRow(o, p);
    NextRow(o, n);
    forall k: nat, b: nat | k < o + 1 && b < p
      ensures ByteAt(packed + row, Index(k, p, b)) == PackedByte(w[k], gs, b)
    {
      RowPlace(k, o, p, b);
      if k < o {
        assert ByteAt(packed + row, Index(k, p, b)) == ByteAt(packed, Index(k, p, b));
      }
    }
    forall k: nat, g: nat | k < o + 1 && g < n
      ensures At(scale + s, Index(k, n, g)) == Scale(w[k], gs, g)
    {
      RowPlace(k, o, n, g);
      if k < o {
        assert At(scale + s, Index(k, n, g)) == At(scale, Index(k, n, g));
      }
    }
  }

  lemma NextRow(o: nat, n: nat)
    ensures (o + 1) * n == o * n + n
  {}

  lemma RowPlace(k: nat, o: nat, n: nat, b: nat)
    requires k <= o && b < n
    ensures k < o ==> Index(k, n, b) < o * n
    ensures k == o ==> Index(k, n, b) == o * n + b
  {
    LeadingDigit(n, k, b, o, 0);
  }
}
