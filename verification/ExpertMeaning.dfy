/**
 An expert as a textbook has it, on matrices of decoded elements, and what the code computes from the
 packed bytes and scales of these matrices.
 */
module ExpertMeaning {
  import opened RealSum
  import opened Buffers
  import opened Fp4
  import Textbook

  /** A stored matrix by rows: one nibble for a column, and one scale byte for 32 columns. */
  datatype Stored = Stored(nibbles: seq<seq<nat>>, scales: seq<seq<nat>>)

  predicate IsStored(m: Stored, rows: nat, cols: nat) {
    && |m.nibbles| == |m.scales| == rows && Even(m.nibbles, cols) && Even(m.scales, (cols + 31) / 32)
    && forall o :: 0 <= o < rows ==> Nibbles(m.nibbles[o])
  }

  predicate Nibbles(row: seq<nat>) {
    forall x :: 0 <= x < |row| ==> row[x] < 16
  }

  /** The decoded elements. */
  function Decoded(c: Codec, m: Stored, rows: nat, cols: nat): (r: seq<seq<real>>)
    requires IsStored(m, rows, cols)
    ensures |r| == rows && Even(r, cols)
  {
    seq(rows, o requires 0 <= o < rows => DecodedRow(c, m.nibbles[o], m.scales[o]))
  }

  function DecodedRow(c: Codec, nibbles: seq<nat>, scales: seq<nat>): (r: seq<real>)
    requires |scales| == (|nibbles| + 31) / 32
    ensures |r| == |nibbles|
  {
    seq(|nibbles|, x requires 0 <= x < |nibbles| => c.nibble(nibbles[x]) * c.scale(scales[x / 32]))
  }

  // ---------------------------------------------------------------------------------------------
  // The bytes
  // ---------------------------------------------------------------------------------------------

  /** Two columns in a byte, the first of them in its low half. */
  function PackRow(row: seq<nat>): seq<nat> {
    if |row| <= 1 then row else [row[0] + 16 * row[1]] + PackRow(row[2..])
  }

  lemma {:induction false} PackedNibble(row: seq<nat>, x: nat)
    requires Nibbles(row) && x < |row|
    ensures |PackRow(row)| == (|row| + 1) / 2 && Nibble(PackRow(row)[x / 2], x) == row[x]
  {
    hide Nibble;
    PackedSize(row);
    if x >= 2 {
      PackedNibble(row[2..], x - 2);
      assert PackRow(row)[x / 2] == PackRow(row[2..])[(x - 2) / 2];
      SameHalf(PackRow(row)[x / 2], x);
    } else {
      FirstNibbles(row, x);
    }
  }

  lemma SameHalf(b: nat, x: nat)
    requires x >= 2
    ensures Nibble(b, x) == Nibble(b, x - 2)
  {}

  lemma FirstNibbles(row: seq<nat>, x: nat)
    requires Nibbles(row) && x < |row| && x < 2
    ensures |PackRow(row)| > 0 && Nibble(PackRow(row)[0], x) == row[x]
  {
    if |row| >= 2 {
      var b := row[0] + 16 * row[1];
      assert b % 16 == row[0] && b / 16 == row[1];
    }
  }

  lemma {:induction false} PackedSize(row: seq<nat>)
    ensures |PackRow(row)| == (|row| + 1) / 2
  {
    if |row| >= 2 {
      PackedSize(row[2..]);
    }
  }

  function PackedRows(m: Stored): seq<seq<nat>> {
    seq(|m.nibbles|, o requires 0 <= o < |m.nibbles| => PackRow(m.nibbles[o]))
  }

  /** The tensor of a stored matrix: packed rows and rows of scales, each kind in one buffer. */
  function TensorOf(m: Stored, cols: nat): Tensor {
    Tensor(|m.nibbles|, cols, Flat(PackedRows(m)), Flat(m.scales))
  }

  lemma PackedEven(m: Stored, rows: nat, cols: nat)
    requires IsStored(m, rows, cols)
    ensures Even(PackedRows(m), PackedStride(cols))
  {
    forall o | 0 <= o < rows
      ensures |PackedRows(m)[o]| == PackedStride(cols)
    {
      PackedSize(m.nibbles[o]);
    }
  }

  lemma TensorSized(m: Stored, rows: nat, cols: nat)
    requires IsStored(m, rows, cols) && cols > 0
    ensures Sized(TensorOf(m, cols))
  {
    hide Flat;
    PackedEven(m, rows, cols);
    FlatSize(PackedRows(m), PackedStride(cols));
    FlatSize(m.scales, Groups(cols));
  }

  lemma NibbleIs(m: Stored, rows: nat, cols: nat, o: nat, x: nat)
    requires IsStored(m, rows, cols) && o < rows && x < cols
    ensures NibbleAt(TensorOf(m, cols), o, x) == m.nibbles[o][x]
  {
    hide Flat, Nibble, PackRow;
    PackedEven(m, rows, cols);
    PackedNibble(m.nibbles[o], x);
    FlatAt(PackedRows(m), PackedStride(cols), o, x / 2);
  }

  lemma ScaleIs(c: Codec, m: Stored, rows: nat, cols: nat, o: nat, x: nat)
    requires IsStored(m, rows, cols) && o < rows && x < cols
    ensures ScaleAt(c, TensorOf(m, cols), o, x) == c.scale(m.scales[o][x / 32])
  {
    hide Flat, PackedRows;
    FlatAt(m.scales, Groups(cols), o, x / 32);
  }

  /** Every element that the code reads is the element that was stored. */
  lemma ElementIs(c: Codec, m: Stored, rows: nat, cols: nat, o: nat, x: nat)
    requires IsStored(m, rows, cols) && o < rows && x < cols
    ensures Dequant(c, TensorOf(m, cols), o, x) == Decoded(c, m, rows, cols)[o][x]
  {
    hide NibbleAt, ScaleAt, TensorOf;
    NibbleIs(m, rows, cols, o, x);
    ScaleIs(c, m, rows, cols, o, x);
  }

  lemma ProductMeaning(c: Codec, m: Stored, rows: nat, cols: nat, o: nat, x: seq<real>)
    requires IsStored(m, rows, cols) && o < rows && |x| == cols
    ensures Product(c, TensorOf(m, cols), o, Vector(x)) == Textbook.Product(Decoded(c, m, rows, cols), x)[o]
  {
    hide Dequant, Decoded;
    var row := Decoded(c, m, rows, cols)[o];
    var t := TensorOf(m, cols);
    forall i: nat | i < cols
      ensures RowTerms(c, t, o, Vector(x))(i) == Textbook.Times(row, x)(i)
    {
      ElementIs(c, m, rows, cols, o, i);
    }
    SumEqual(cols, RowTerms(c, t, o, Vector(x)), Textbook.Times(row, x));
  }

  // ---------------------------------------------------------------------------------------------
  // The expert
  // ---------------------------------------------------------------------------------------------

  datatype Mlp = Mlp(gate: Stored, up: Stored, down: Stored)

  function Width(e: Mlp): nat {
    |e.gate.nibbles|
  }

  predicate IsMlp(e: Mlp, hidden: nat) {
    && hidden > 0 && Width(e) > 0 && IsStored(e.gate, Width(e), hidden) && IsStored(e.up, Width(e), hidden)
    && IsStored(e.down, hidden, Width(e))
  }

  function Activated(c: Codec, g: seq<real>, u: seq<real>): (h: seq<real>)
    requires |g| == |u|
    ensures |h| == |g|
  {
    seq(|g|, j requires 0 <= j < |g| => c.act(g[j], u[j]))
  }

  /** The down matrix times the activation of the gate matrix times x and the up matrix times x. */
  function MlpOf(c: Codec, e: Mlp, x: seq<real>): (y: seq<real>)
    requires IsMlp(e, |x|)
    ensures |y| == |x|
  {
    var g := Textbook.Product(Decoded(c, e.gate, Width(e), |x|), x);
    var u := Textbook.Product(Decoded(c, e.up, Width(e), |x|), x);
    Textbook.Product(Decoded(c, e.down, |x|, Width(e)), Activated(c, g, u))
  }

  function ExpertOf(e: Mlp, hidden: nat): Expert {
    Expert(TensorOf(e.gate, hidden), TensorOf(e.up, hidden), TensorOf(e.down, Width(e)))
  }

  lemma ExpertFits(e: Mlp, hidden: nat)
    requires IsMlp(e, hidden)
    ensures Fits(ExpertOf(e, hidden), hidden, Width(e)) && ExpertOf(e, hidden).gate.o == Width(e)
  {
    hide Sized, PackedRows, Flat, IsStored;
    StoredRows(e.up, Width(e), hidden);
    StoredRows(e.down, hidden, Width(e));
    TensorSized(e.gate, Width(e), hidden);
    TensorSized(e.up, Width(e), hidden);
    TensorSized(e.down, hidden, Width(e));
  }

  lemma StoredRows(m: Stored, rows: nat, cols: nat)
    requires IsStored(m, rows, cols)
    ensures |m.nibbles| == rows
  {}

  /** The code's sums over packed bytes are the textbook expert on the stored elements. */
  lemma OutputMeaning(c: Codec, e: Mlp, x: seq<real>, o: nat)
    requires IsMlp(e, |x|) && o < |x|
    ensures Output(c, ExpertOf(e, |x|), Vector(x), o) == MlpOf(c, e, x)[o]
  {
    hide Product, Decoded, TensorOf, Textbook.Product;
    var w := Width(e);
    var g := Textbook.Product(Decoded(c, e.gate, w, |x|), x);
    var u := Textbook.Product(Decoded(c, e.up, w, |x|), x);
    var h := Activated(c, g, u);
    forall j: nat | j < w
      ensures Inner(c, ExpertOf(e, |x|), Vector(x))(j) == Vector(h)(j)
    {
      ProductMeaning(c, e.gate, w, |x|, j, x);
      ProductMeaning(c, e.up, w, |x|, j, x);
    }
    var down := TensorOf(e.down, w);
    assert down.i == w by { TensorColumns(e.down, w); }
    ProductDependsOn(c, down, o, Inner(c, ExpertOf(e, |x|), Vector(x)), Vector(h));
    ProductMeaning(c, e.down, |x|, w, o, h);
  }

  lemma TensorColumns(m: Stored, cols: nat)
    ensures TensorOf(m, cols).i == cols
  {}

  /** one_expert on the packed expert adds the weighted textbook output. */
  method AddMlp(c: Codec, e: Mlp, weight: real, y0: seq<real>, x: seq<real>) returns (y: seq<real>)
    requires IsMlp(e, |x|) && |y0| == |x|
    ensures |y| == |x| && forall o: nat :: o < |x| ==> y[o] == y0[o] + weight * MlpOf(c, e, x)[o]
  {
    hide Output, MlpOf, Sized, TensorOf;
    ExpertFits(e, |x|);
    TensorColumns(e.gate, |x|);
    var ok;
    ok, y := OneExpert(c, ExpertOf(e, |x|), weight, y0, x, |x|, Width(e));
    forall o: nat | o < |x|
      ensures Output(c, ExpertOf(e, |x|), Vector(x), o) == MlpOf(c, e, x)[o]
    {
      OutputMeaning(c, e, x, o);
    }
  }
}
