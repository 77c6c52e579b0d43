/**
 FP4 experts cut in two for tensor parallelism: packed nibbles with one scale per 32 columns, the
 slicing of the gate, up and down matrices, and the expert computed from a shard.
 */
module Fp4 {
  import opened Arith
  import opened Results
  import opened RealSum

  /** The decoding of a nibble, the decoding of a scale byte, and the gated activation. */
  class Codec {
    const nibble: nat -> real
    const scale: nat -> real
    const act: (real, real) -> real

    constructor (nibble: nat -> real, scale: nat -> real, act: (real, real) -> real)
    {
      this.nibble, this.scale, this.act := nibble, scale, act;
    }
  }

  function CeilDiv(a: nat, b: nat): nat
    requires b > 0
  {
    (a + b - 1) / b
  }

  /** An o x i matrix: rows of packed nibbles, and rows of scales. */
  datatype Tensor = Tensor(o: nat, i: nat, packed: seq<nat>, scale: seq<nat>)

  function PackedStride(i: nat): nat {
    CeilDiv(i, 2)
  }

  function Groups(i: nat): nat {
    if CeilDiv(i, 32) > 1 then CeilDiv(i, 32) else 1
  }

  predicate Sized(t: Tensor) {
    |t.packed| == t.o * PackedStride(t.i) && |t.scale| == t.o * Groups(t.i)
  }

  /** Element x of row o of a row-major buffer with rows of n. */
  function Index(o: nat, n: nat, x: nat): nat {
    o * n + x
  }

  function ByteAt(s: seq<nat>, k: nat): nat {
    if k < |s| then s[k] else 0
  }

  function Nibble(b: nat, i: nat): nat {
    if i % 2 == 1 then b / 16 % 16 else b % 16
  }

  function NibbleAt(t: Tensor, o: nat, i: nat): nat {
    Nibble(ByteAt(t.packed, Index(o, PackedStride(t.i), i / 2)), i)
  }

  function ScaleAt(c: Codec, t: Tensor, o: nat, i: nat): real {
    var si := Index(o, Groups(t.i), i / 32);
    if si < |t.scale| then c.scale(t.scale[si]) else 1.0
  }

  /** The value of one element. */
  function Dequant(c: Codec, t: Tensor, o: nat, i: nat): real {
    c.nibble(NibbleAt(t, o, i)) * ScaleAt(c, t, o, i)
  }

  // ---------------------------------------------------------------------------------------------
  // The matrix-vector product, group by group
  // ---------------------------------------------------------------------------------------------

  function RowTerms(c: Codec, t: Tensor, o: nat, x: nat -> real): nat -> real {
    (i: nat) => x(i) * Dequant(c, t, o, i)
  }

  function Product(c: Codec, t: Tensor, o: nat, x: nat -> real): real {
    Sum(t.i, RowTerms(c, t, o, x))
  }

  function Vector(x: seq<real>): nat -> real {
    (i: nat) => At(x, i)
  }

  /** One output row: the scale is read once for each group of 32 columns. */
  method RowProduct(c: Codec, t: Tensor, o: nat, x: seq<real>) returns (acc: real)
    requires Sized(t) && o < t.o && |x| == t.i && t.i > 0
    ensures acc == Product(c, t, o, Vector(x))
  {
    hide NibbleAt, Index, RowTerms, Sum;
    acc := 0.0;
    SumNone(RowTerms(c, t, o, Vector(x)));
    var ng := CeilDiv(t.i, 32);
    var g := 0;
    while g < ng
      invariant 0 <= g <= ng && acc == Sum(if 32 * g < t.i then 32 * g else t.i, RowTerms(c, t, o, Vector(x)))
    {
      var i0, i1 := g * 32, g * 32 + 32;
      if i1 > t.i {
        i1 := t.i;
      }
      InRow(o, t.o, ng, g);
      acc := GroupProduct(c, t, o, x, g, i0, i1, c.scale(t.scale[Index(o, ng, g)]), acc);
      g := g + 1;
    }
  }

  /** The columns of one group. */
  method GroupProduct(c: Codec, t: Tensor, o: nat, x: seq<real>, g: nat, i0: nat, i1: nat, scale: real, acc0: real)
    returns (acc: real)
    requires i0 == 32 * g <= i1 <= 32 * g + 32 && i1 <= t.i == |x|
    requires acc0 == Sum(i0, RowTerms(c, t, o, Vector(x)))
    requires Index(o, Groups(t.i), g) < |t.scale| && scale == c.scale(t.scale[Index(o, Groups(t.i), g)])
    ensures acc == Sum(i1, RowTerms(c, t, o, Vector(x)))
  {
    hide NibbleAt, Groups, RowTerms, Index;
    acc := acc0;
    var i := i0;
    while i < i1
      invariant i0 <= i <= i1 && acc == Sum(i, RowTerms(c, t, o, Vector(x)))
    {
      TermInGroup(c, t, o, x, g, i);
      acc := acc + x[i] * (c.nibble(NibbleAt(t, o, i)) * scale);
      i := i + 1;
    }
  }

  lemma TermInGroup(c: Codec, t: Tensor, o: nat, x: seq<real>, g: nat, i: nat)
    requires 32 * g <= i < 32 * g + 32 && i < |x| && Index(o, Groups(t.i), g) < |t.scale|
    ensures RowTerms(c, t, o, Vector(x))(i) == x[i] * (c.nibble(NibbleAt(t, o, i)) * c.scale(t.scale[Index(o, Groups(t.i), g)]))
  {
    hide NibbleAt, Groups, Index;
    assert i / 32 == g;
    var nib, sc := c.nibble(NibbleAt(t, o, i)), c.scale(t.scale[Index(o, Groups(t.i), g)]);
    assert ScaleAt(c, t, o, i) == sc;
    assert Dequant(c, t, o, i) == nib * sc;
    assert RowTerms(c, t, o, Vector(x))(i) == Vector(x)(i) * Dequant(c, t, o, i);
    assert Vector(x)(i) == x[i];
  }

  method MatVec(c: Codec, t: Tensor, x: seq<real>) returns (y: seq<real>)
    requires Sized(t) && |x| == t.i && t.i > 0
    ensures |y| == t.o && forall o: nat :: o < t.o ==> y[o] == Product(c, t, o, Vector(x))
  {
    hide Product, Sized;
    y := [];
    var o := 0;
    while o < t.o
      invariant 0 <= o <= t.o && |y| == o && forall k: nat :: k < o ==> y[k] == Product(c, t, k, Vector(x))
    {
      var r := RowProduct(c, t, o, x);
      y := y + [r];
      o := o + 1;
    }
  }

  // ---------------------------------------------------------------------------------------------
  // One expert
  // ---------------------------------------------------------------------------------------------

  datatype Expert = Expert(gate: Tensor, up: Tensor, down: Tensor)

  /** hidden inputs and outputs, width inner units. */
  predicate Fits(e: Expert, hidden: nat, width: nat) {
    && e.gate.o == e.up.o == e.down.i == width && e.gate.i == e.up.i == e.down.o == hidden
    && Sized(e.gate) && Sized(e.up) && Sized(e.down)
  }

  function Inner(c: Codec, e: Expert, x: nat -> real): nat -> real {
    (j: nat) => c.act(Product(c, e.gate, j, x), Product(c, e.up, j, x))
  }

  /** Element o of the expert's output. */
  function Output(c: Codec, e: Expert, x: nat -> real, o: nat): real {
    Product(c, e.down, o, Inner(c, e, x))
  }

  /** one_expert: adds the weighted output of the expert to y. */
  method OneExpert(c: Codec, e: Expert, weight: real, y0: seq<real>, x: seq<real>, ghost hidden: nat, ghost width: nat)
    returns (ok: bool, y: seq<real>)
    requires Sized(e.gate) && Sized(e.up) && Sized(e.down)
    requires |x| == |y0| == e.gate.i && e.gate.i > 0 && e.gate.o > 0
    ensures ok <==> Fits(e, e.gate.i, e.gate.o)
    ensures |y| == |y0| && if ok then forall o: nat :: o < |y| ==> y[o] == y0[o] + weight * Output(c, e, Vector(x), o)
                           else y == y0
  {
    hide Product, Sized;
    y := y0;
    var I, O := e.gate.i, e.gate.o;
    if e.up.i != I || e.up.o != O || e.down.i != O || e.down.o != I {
      return false, y;
    }
    var g := MatVec(c, e.gate, x);
    var u := MatVec(c, e.up, x);
    var h := [];
    var i := 0;
    while i < O
      invariant 0 <= i <= O && |h| == i && forall j: nat :: j < i ==> h[j] == Inner(c, e, Vector(x))(j)
    {
      h := h + [c.act(g[i], u[i])];
      i := i + 1;
    }
    var d := MatVec(c, e.down, h);
    i := 0;
    while i < I
      invariant 0 <= i <= I && |y| == |y0|
      invariant forall o: nat :: o < |y| ==> y[o] == if o < i then y0[o] + weight * d[o] else y0[o]
    {
      y := y[i := y[i] + weight * d[i]];
      i := i + 1;
    }
    forall o: nat | o < I
      ensures d[o] == Output(c, e, Vector(x), o)
    {
      ProductDependsOn(c, e.down, o, Vector(h), Inner(c, e, Vector(x)));
    }
    ok := true;
  }

  lemma ProductDependsOn(c: Codec, t: Tensor, o: nat, x: nat -> real, x': nat -> real)
    requires forall i: nat :: i < t.i ==> x(i) == x'(i)
    ensures Product(c, t, o, x) == Product(c, t, o, x')
  {
    SumEqual(t.i, RowTerms(c, t, o, x), RowTerms(c, t, o, x'));
  }

  // ---------------------------------------------------------------------------------------------
  // Uploading a whole expert, and one rank's half of it
  // ---------------------------------------------------------------------------------------------

  /** The scales given, or the neutral byte. */
  function ScalesOr(scale: Option<seq<nat>>, n: nat): seq<nat>
    requires scale.Some? ==> |scale.value| >= n
  {
    if scale.Some? then scale.value[..n] else seq(n, k => 127)
  }

  predicate EnoughFor(w: seq<nat>, scale: Option<seq<nat>>, o: nat, i: nat) {
    |w| >= o * PackedStride(i) && (scale.Some? ==> |scale.value| >= o * Groups(i))
  }

  function Upload(w: seq<nat>, scale: Option<seq<nat>>, o: nat, i: nat): (t: Tensor)
    requires EnoughFor(w, scale, o, i)
    ensures Sized(t)
  {
    Tensor(o, i, w[..o * PackedStride(i)], ScalesOr(scale, o * Groups(i)))
  }

  /** The bytes of an expert as the checkpoint stores it. */
  datatype Bytes = Bytes(gate: seq<nat>, gateScale: Option<seq<nat>>, up: seq<nat>, upScale: Option<seq<nat>>,
                         down: seq<nat>, downScale: Option<seq<nat>>)

  /** The whole expert of width n. */
  predicate Whole(b: Bytes, hidden: nat, n: nat) {
    && EnoughFor(b.gate, b.gateScale, n, hidden) && EnoughFor(b.up, b.upScale, n, hidden)
    && EnoughFor(b.down, b.downScale, hidden, n)
  }

  function WholeExpert(b: Bytes, hidden: nat, n: nat): (e: Expert)
    requires Whole(b, hidden, n)
    ensures Fits(e, hidden, n)
  {
    Expert(Upload(b.gate, b.gateScale, n, hidden), Upload(b.up, b.upScale, n, hidden), Upload(b.down, b.downScale, hidden, n))
  }

  /** rank * j + k, the place in the whole of element k of a rank's half. */
  function InWhole(rank: nat, j: nat, k: nat): nat {
    if rank == 0 then k else j + k
  }

  lemma InWholeIs(rank: nat, j: nat, k: nat)
    requires rank < 2
    ensures InWhole(rank, j, k) == rank * j + k
  {
    assert rank == 0 || rank == 1;
  }

  /** Rows rank * j to rank * j + j of a row-major buffer with rows of n, by pointer arithmetic. */
  function RowsOf(w: seq<nat>, rank: nat, j: nat, n: nat): (r: seq<nat>)
    requires rank < 2 && |w| >= 2 * j * n
    ensures |r| == j * n
  {
    HalfFits(rank, j, n);
    w[rank * j * n..rank * j * n + j * n]
  }

  lemma HalfFits(rank: nat, j: nat, n: nat)
    requires rank < 2
    ensures 0 <= rank * j * n <= rank * j * n + j * n <= 2 * j * n
  {
    assert rank == 0 || rank == 1;
    assert 2 * j * n == j * n + j * n;
  }

  /** Element x of row o of the half is element x of row rank * j + o of the whole. */
  lemma RowsOfAt(w: seq<nat>, rank: nat, j: nat, n: nat, o: nat, x: nat)
    requires rank < 2 && |w| >= 2 * j * n && o < j && x < n
    ensures Index(o, n, x) < |RowsOf(w, rank, j, n)| && Index(rank * j + o, n, x) < 2 * j * n
    ensures RowsOf(w, rank, j, n)[Index(o, n, x)] == w[Index(rank * j + o, n, x)]
  {
    RowOfHalf(rank, j, n, o, x);
    HalfFits(rank, j, n);
    var first, at := rank * j * n, o * n + x;
    assert RowsOf(w, rank, j, n) == w[first..first + j * n];
  }

  lemma RowOfHalf(rank: nat, j: nat, n: nat, o: nat, x: nat)
    requires rank < 2 && o < j && x < n
    ensures Index(rank * j + o, n, x) == rank * j * n + Index(o, n, x)
    ensures Index(o, n, x) < j * n && Index(rank * j + o, n, x) < 2 * j * n
  {
    DigitsBelow(n, o, x, j);
    assert rank == 0 || rank == 1;
    assert (1 * j + o) * n == j * n + o * n;
    assert 2 * j * n == j * n + j * n;
  }

  function RowShard(w: seq<nat>, scale: Option<seq<nat>>, rank: nat, j: nat, i: nat): (t: Tensor)
    requires rank < 2 && EnoughFor(w, scale, 2 * j, i)
    ensures Sized(t) && t.o == j && t.i == i
  {
    Tensor(j, i, RowsOf(w, rank, j, PackedStride(i)),
           if scale.Some? then RowsOf(scale.value, rank, j, Groups(i)) else seq(j * Groups(i), k => 127))
  }

  /** A row shard has the elements of the rows it stands for, for every number of columns. */
  lemma RowShardElements(c: Codec, w: seq<nat>, scale: Option<seq<nat>>, rank: nat, j: nat, i: nat, o: nat, x: nat)
    requires rank < 2 && EnoughFor(w, scale, 2 * j, i) && o < j && x < i
    ensures Dequant(c, RowShard(w, scale, rank, j, i), o, x) == Dequant(c, Upload(w, scale, 2 * j, i), InWhole(rank, j, o), x)
  {
    hide PackedStride, Groups, NibbleAt, ScaleAt, InWhole, RowShard, Upload;
    RowShardNibble(w, scale, rank, j, i, o, x);
    RowShardScale(c, w, scale, rank, j, i, o, x);
  }

  lemma RowShardNibble(w: seq<nat>, scale: Option<seq<nat>>, rank: nat, j: nat, i: nat, o: nat, x: nat)
    requires rank < 2 && EnoughFor(w, scale, 2 * j, i) && o < j && x < i
    ensures NibbleAt(RowShard(w, scale, rank, j, i), o, x) == NibbleAt(Upload(w, scale, 2 * j, i), InWhole(rank, j, o), x)
  {
    InWholeIs(rank, j, o);
    ColumnBounds(i, x);
    hide PackedStride, Groups, RowsOf, Nibble, Index, InWhole;
    RowsOfAt(w, rank, j, PackedStride(i), o, x / 2);
    SameNibble(RowShard(w, scale, rank, j, i), o, Upload(w, scale, 2 * j, i), InWhole(rank, j, o), x);
  }

  lemma RowShardScale(c: Codec, w: seq<nat>, scale: Option<seq<nat>>, rank: nat, j: nat, i: nat, o: nat, x: nat)
    requires rank < 2 && EnoughFor(w, scale, 2 * j, i) && o < j && x < i
    ensures ScaleAt(c, RowShard(w, scale, rank, j, i), o, x) == ScaleAt(c, Upload(w, scale, 2 * j, i), InWhole(rank, j, o), x)
  {
    InWholeIs(rank, j, o);
    ColumnBounds(i, x);
    hide PackedStride, Groups, RowsOf, Nibble, Index, InWhole;
    RowOfHalf(rank, j, Groups(i), o, x / 32);
    if scale.Some? {
      RowsOfAt(scale.value, rank, j, Groups(i), o, x / 32);
    }
    SameScale(c, RowShard(w, scale, rank, j, i), o, Upload(w, scale, 2 * j, i), InWhole(rank, j, o), x);
  }

  lemma SameNibble(t: Tensor, o: nat, t': Tensor, o': nat, x: nat)
    requires t.i == t'.i
    requires ByteAt(t.packed, Index(o, PackedStride(t.i), x / 2)) == ByteAt(t'.packed, Index(o', PackedStride(t.i), x / 2))
    ensures NibbleAt(t, o, x) == NibbleAt(t', o', x)
  {}

  lemma SameScale(c: Codec, t: Tensor, o: nat, t': Tensor, o': nat, x: nat)
    requires t.i == t'.i
    requires Index(o, Groups(t.i), x / 32) < |t.scale| && Index(o', Groups(t.i), x / 32) < |t'.scale|
    requires t.scale[Index(o, Groups(t.i), x / 32)] == t'.scale[Index(o', Groups(t.i), x / 32)]
    ensures ScaleAt(c, t, o, x) == ScaleAt(c, t', o', x)
  {}

  lemma ColumnBounds(i: nat, x: nat)
    requires x < i
    ensures x / 2 < PackedStride(i) && x / 32 < Groups(i)
  {}

  // ---------------------------------------------------------------------------------------------
  // The down matrix is cut by columns
  // ---------------------------------------------------------------------------------------------

  /** What memory holds from the start of a buffer on; `past` gives the bytes after its end. */
  function Memory(w: seq<nat>, past: nat -> nat): nat -> nat {
    (k: nat) => if k < |w| then w[k] else past(k)
  }

  /** r holds the columns rank * half to rank * half + half of w, whose rows have `full` entries. */
  ghost predicate IsColumns(r: seq<nat>, w: nat -> nat, rank: nat, rows: nat, half: nat, full: nat) {
    && |r| == rows * half
    && forall o: nat, x: nat :: o < rows && x < half ==>
         ByteAt(r, Index(o, half, x)) == w(Index(o, full, rank * half + x))
  }

  /** One stretch of each row, row after row. */
  function Columns(w: nat -> nat, rank: nat, rows: nat, half: nat, full: nat): seq<nat> {
    if rows == 0 then []
    else Columns(w, rank, rows - 1, half, full) + Stretch(w, (rows - 1) * full + rank * half, half)
  }

  function Stretch(w: nat -> nat, at: nat, n: nat): (s: seq<nat>)
    ensures |s| == n
  {
    seq(n, x requires x >= 0 => w(at + x))
  }

  lemma {:induction false} ColumnsAre(w: nat -> nat, rank: nat, rows: nat, half: nat, full: nat)
    ensures IsColumns(Columns(w, rank, rows, half, full), w, rank, rows, half, full)
  {
    if rows > 0 {
      ColumnsAre(w, rank, rows - 1, half, full);
      OneMoreRow(Columns(w, rank, rows - 1, half, full), w, rank, rows - 1, half, full);
    }
  }

  /** Copies one stretch of each row, wherever it lies. */
  method SliceColumns(w: nat -> nat, rank: nat, rows: nat, half: nat, full: nat) returns (r: seq<nat>)
    ensures r == Columns(w, rank, rows, half, full) && IsColumns(r, w, rank, rows, half, full)
  {
    hide IsColumns;
    r := [];
    var o := 0;
    while o < rows
      invariant 0 <= o <= rows && r == Columns(w, rank, o, half, full)
    {
      r := r + Stretch(w, o * full + rank * half, half);
      o := o + 1;
    }
    ColumnsAre(w, rank, rows, half, full);
  }

  lemma OneMoreRow(r: seq<nat>, w: nat -> nat, rank: nat, rows: nat, half: nat, full: nat)
    requires IsColumns(r, w, rank, rows, half, full)
    ensures IsColumns(r + Stretch(w, rows * full + rank * half, half), w, rank, rows + 1, half, full)
  {
    hide Index, ByteAt, Stretch;
    var at := rows * full + rank * half;
    var more := Stretch(w, at, half);
    assert (rows + 1) * half == rows * half + half;
    forall o: nat, x: nat | o < rows + 1 && x < half
      ensures ByteAt(r + more, Index(o, half, x)) == w(Index(o, full, rank * half + x))
    {
      if o < rows {
        InRow(o, rows, half, x);
        Kept(r, more, Index(o, half, x));
      } else {
        LastRow(r, w, at, half, x);
        IndexIs(rows, half, x);
        IndexIs(rows, full, rank * half + x);
      }
    }
  }

  lemma Kept(r: seq<nat>, more: seq<nat>, k: nat)
    requires k < |r|
    ensures ByteAt(r + more, k) == ByteAt(r, k)
  {}

  lemma IndexIs(o: nat, n: nat, x: nat)
    ensures Index(o, n, x) == o * n + x
  {}

  lemma LastRow(r: seq<nat>, w: nat -> nat, at: nat, half: nat, x: nat)
    requires x < half
    ensures ByteAt(r + Stretch(w, at, half), |r| + x) == w(at + x)
  {}

  /** The tensor of a rank's columns. */
  ghost predicate IsColumnShard(t: Tensor, w: seq<nat>, scale: Option<seq<nat>>, past: nat -> nat, rank: nat, o: nat, j: nat) {
    && t.o == o && t.i == j && Sized(t)
    && IsColumns(t.packed, Memory(w, past), rank, o, PackedStride(j), PackedStride(2 * j))
    && match scale
       case None => forall k :: 0 <= k < |t.scale| ==> t.scale[k] == 127
       case Some(s) => IsColumns(t.scale, Memory(s, past), rank, o, Groups(j), Groups(2 * j))
  }

  /** The scale of a shard's column is the scale of the column it stands for, exactly when no group of 32 straddles the cut. */
  lemma GroupsAlign(j: nat)
    requires j > 0 && j % 2 == 0
    ensures (forall x: nat :: x < j ==> GroupOf(j, 1, x) == (j + x) / 32) <==> j % 32 == 0
  {
    if forall x: nat :: x < j ==> GroupOf(j, 1, x) == (j + x) / 32 {
      assert GroupOf(j, 1, 0) == j / 32;
    }
  }

  /** The group whose scale the slicing gives column x of a rank's half. */
  function GroupOf(j: nat, rank: nat, x: nat): nat {
    rank * Groups(j) + x / 32
  }

  /** The strides of 32 * m columns. */
  lemma AlignedForm(m: nat)
    requires m > 0
    ensures PackedStride(32 * m) == 16 * m && Groups(32 * m) == m
  {
    QuotientIs(2, 32 * m + 1, 16 * m, 1);
    QuotientIs(32, 32 * m + 31, m, 31);
  }

  /** Column x of a rank's half, in units of bytes and of groups. */
  lemma AlignedColumn(m: nat, rank: nat, x: nat)
    requires m > 0 && rank < 2 && x < 32 * m
    ensures (rank * (32 * m) + x) / 2 == rank * (16 * m) + x / 2 < 32 * m && x / 2 < 16 * m
    ensures (rank * (32 * m) + x) / 32 == rank * m + x / 32 < 2 * m && x / 32 < m
    ensures (rank * (32 * m) + x) % 2 == x % 2
  {
    if rank == 0 {
    } else {
      assert rank == 1;
      QuotientIs(2, 32 * m + x, 16 * m + x / 2, x % 2);
      QuotientIs(32, 32 * m + x, m + x / 32, x % 32);
    }
  }

  lemma AlignedStrides(j: nat, rank: nat, x: nat)
    requires j > 0 && j % 32 == 0 && rank < 2 && x < j
    ensures PackedStride(2 * j) == 2 * PackedStride(j) && (rank * j + x) / 2 == rank * PackedStride(j) + x / 2
    ensures (rank * j + x) / 32 == GroupOf(j, rank, x) && (rank * j + x) % 2 == x % 2
    ensures x / 2 < PackedStride(j) && x / 32 < Groups(j) && Groups(2 * j) == 2 * Groups(j)
    ensures (rank * j + x) / 2 < PackedStride(2 * j) && (rank * j + x) / 32 < Groups(2 * j)
  {
    var m := j / 32;
    assert j == 32 * m && 2 * j == 32 * (2 * m);
    AlignedForm(m);
    AlignedForm(2 * m);
    AlignedColumn(m, rank, x);
    hide PackedStride, Groups;
  }

  /** A column shard has the elements of the columns it stands for. */
  lemma ColumnShardElements(c: Codec, t: Tensor, w: seq<nat>, scale: Option<seq<nat>>, past: nat -> nat, rank: nat,
                            rows: nat, j: nat, o: nat, x: nat)
    requires rank < 2 && j > 0 && j % 32 == 0 && EnoughFor(w, scale, rows, 2 * j) && o < rows && x < j
    requires IsColumnShard(t, w, scale, past, rank, rows, j)
    ensures Dequant(c, t, o, x) == Dequant(c, Upload(w, scale, rows, 2 * j), o, InWhole(rank, j, x))
  {
    hide Nibble, Index, Groups, PackedStride, IsColumns, InWhole;
    InWholeIs(rank, j, x);
    AlignedStrides(j, rank, x);
    ColumnNibble(t, w, scale, past, rank, rows, j, o, x);
    ColumnScale(c, t, w, scale, past, rank, rows, j, o, x);
  }

  lemma ColumnNibble(t: Tensor, w: seq<nat>, scale: Option<seq<nat>>, past: nat -> nat, rank: nat,
                     rows: nat, j: nat, o: nat, x: nat)
    requires rank < 2 && j > 0 && j % 32 == 0 && EnoughFor(w, scale, rows, 2 * j) && o < rows && x < j
    requires IsColumnShard(t, w, scale, past, rank, rows, j)
    ensures NibbleAt(t, o, x) == NibbleAt(Upload(w, scale, rows, 2 * j), o, InWhole(rank, j, x))
  {
    hide Nibble, Groups, PackedStride;
    var y := InWhole(rank, j, x);
    InWholeIs(rank, j, x);
    AlignedStrides(j, rank, x);
    InRow(o, rows, PackedStride(2 * j), y / 2);
    NibbleParity(ByteAt(t.packed, Index(o, PackedStride(j), x / 2)), x, y);
  }

  lemma ColumnScale(c: Codec, t: Tensor, w: seq<nat>, scale: Option<seq<nat>>, past: nat -> nat, rank: nat,
                    rows: nat, j: nat, o: nat, x: nat)
    requires rank < 2 && j > 0 && j % 32 == 0 && EnoughFor(w, scale, rows, 2 * j) && o < rows && x < j
    requires IsColumnShard(t, w, scale, past, rank, rows, j)
    ensures ScaleAt(c, t, o, x) == ScaleAt(c, Upload(w, scale, rows, 2 * j), o, InWhole(rank, j, x))
  {
    hide Groups, PackedStride;
    var y := InWhole(rank, j, x);
    InWholeIs(rank, j, x);
    AlignedStrides(j, rank, x);
    InRow(o, rows, Groups(2 * j), y / 32);
    InRow(o, rows, Groups(j), x / 32);
  }

  lemma InRow(o: nat, rows: nat, n: nat, x: nat)
    requires o < rows && x < n
    ensures Index(o, n, x) < rows * n
  {
    DigitsBelow(n, o, x, rows);
  }

  lemma NibbleParity(b: nat, x: nat, y: nat)
    requires x % 2 == y % 2
    ensures Nibble(b, x) == Nibble(b, y)
  {}

  // ---------------------------------------------------------------------------------------------
  // A rank's half of an expert, and the sum of the two halves
  // ---------------------------------------------------------------------------------------------

  /** What a rank holds of an expert of width 2 * j. */
  ghost predicate IsShard(e: Expert, b: Bytes, past: nat -> nat, hidden: nat, j: nat, rank: nat)
    requires rank < 2 && Whole(b, hidden, 2 * j)
  {
    && e.gate == RowShard(b.gate, b.gateScale, rank, j, hidden)
    && e.up == RowShard(b.up, b.upScale, rank, j, hidden)
    && IsColumnShard(e.down, b.down, b.downScale, past, rank, hidden, j)
  }

  /**
   expert_bank_upload_tp2: an odd or empty width is not cut. The last stretch of the down scales may
   run past their end, see ScaleStretchesFit.
   */
  method UploadTp2(b: Bytes, past: nat -> nat, hidden: nat, j: nat, rank: nat) returns (e: Expert)
    requires rank < 2 && Whole(b, hidden, j) && Whole(b, hidden, 2 * j)
    ensures if hidden == 0 || j == 0 || j % 2 == 1 then e == WholeExpert(b, hidden, j) else IsShard(e, b, past, hidden, j, rank)
  {
    hide PackedStride, Groups, RowsOf, Columns, Memory;
    if hidden == 0 || j == 0 || j % 2 == 1 {
      return WholeExpert(b, hidden, j);
    }
    var dw := SliceColumns(Memory(b.down, past), rank, hidden, PackedStride(j), PackedStride(2 * j));
    var ds := seq(hidden * Groups(j), k => 127);
    if b.downScale.Some? {
      ds := SliceColumns(Memory(b.downScale.value, past), rank, hidden, Groups(j), Groups(2 * j));
    }
    e := Expert(RowShard(b.gate, b.gateScale, rank, j, hidden), RowShard(b.up, b.upScale, rank, j, hidden),
                Tensor(hidden, j, dw, ds));
  }

  /** The stretch of row o that a rank copies lies inside a buffer of that length. */
  predicate StretchInside(length: nat, o: nat, rank: nat, half: nat, full: nat) {
    o * full + rank * half + half <= length
  }

  /** Every stretch that a rank copies of a matrix with that many rows lies inside it. */
  predicate StretchesFit(rows: nat, rank: nat, half: nat, full: nat) {
    forall o: nat :: o < rows ==> StretchInside(rows * full, o, rank, half, full)
  }

  lemma StretchesFitWhen(rows: nat, rank: nat, half: nat, full: nat)
    requires rows > 0 && rank < 2 && half <= full
    ensures StretchesFit(rows, rank, half, full) <==> rank == 0 || 2 * half <= full
  {
    hide StretchInside;
    StretchInsideWhen(rows, rows - 1, rank, half, full);
    forall o: nat | o < rows && (rank == 0 || 2 * half <= full)
      ensures StretchInside(rows * full, o, rank, half, full)
    {
      StretchInsideWhen(rows, o, rank, half, full);
    }
  }

  lemma StretchInsideWhen(rows: nat, o: nat, rank: nat, half: nat, full: nat)
    requires o < rows && rank < 2 && half <= full
    ensures rank == 0 || 2 * half <= full ==> StretchInside(rows * full, o, rank, half, full)
    ensures o == rows - 1 && StretchInside(rows * full, o, rank, half, full) ==> rank == 0 || 2 * half <= full
  {
    MulMonotone(o + 1, rows, full);
    assert (o + 1) * full == o * full + full;
    assert rank == 0 || rank == 1;
  }

  /** The packed columns of both halves lie inside a buffer of exact size. */
  lemma PackedStretchesFit(hidden: nat, j: nat, rank: nat)
    requires hidden > 0 && j > 0 && j % 2 == 0 && rank < 2
    ensures StretchesFit(hidden, rank, PackedStride(j), PackedStride(2 * j))
  {
    hide StretchesFit;
    StretchesFitWhen(hidden, rank, PackedStride(j), PackedStride(2 * j));
  }

  /** Two halves have no more scale groups than the whole exactly at these widths. */
  lemma GroupsFit(j: nat)
    requires j > 0 && j % 2 == 0
    ensures Groups(j) <= Groups(2 * j)
    ensures 2 * Groups(j) <= Groups(2 * j) <==> j % 32 == 0 || j % 32 > 16
  {
    var q, r := j / 32, j % 32;
    assert j == 32 * q + r;
    if r == 0 {
      QuotientIs(32, j + 31, q, 31);
      QuotientIs(32, 2 * j + 31, 2 * q, 31);
    } else if r <= 16 {
      QuotientIs(32, j + 31, q + 1, r - 1);
      QuotientIs(32, 2 * j + 31, 2 * q + 1, 2 * r - 1);
    } else {
      QuotientIs(32, j + 31, q + 1, r - 1);
      QuotientIs(32, 2 * j + 31, 2 * q + 2, 2 * r - 33);
    }
  }

  /** Scales of exact size hold the stretches of rank 0, and those of rank 1 exactly at these widths. */
  lemma ScaleStretchesFit(hidden: nat, j: nat, rank: nat)
    requires hidden > 0 && j > 0 && j % 2 == 0 && rank < 2
    ensures StretchesFit(hidden, rank, Groups(j), Groups(2 * j)) <==> rank == 0 || j % 32 == 0 || j % 32 > 16
  {
    GroupsFit(j);
    hide StretchesFit, Groups;
    StretchesFitWhen(hidden, rank, Groups(j), Groups(2 * j));
  }

  lemma ShardProduct(c: Codec, w: seq<nat>, scale: Option<seq<nat>>, rank: nat, j: nat, i: nat, o: nat, x: nat -> real)
    requires rank < 2 && EnoughFor(w, scale, 2 * j, i) && o < j
    ensures Product(c, RowShard(w, scale, rank, j, i), o, x) == Product(c, Upload(w, scale, 2 * j, i), InWhole(rank, j, o), x)
  {
    var t, u := RowShard(w, scale, rank, j, i), Upload(w, scale, 2 * j, i);
    assert t.i == u.i == i;
    hide RowShard, Upload, Dequant, Product, InWhole;
    forall k: nat | k < i
      ensures Dequant(c, t, o, k) == Dequant(c, u, InWhole(rank, j, o), k)
    {
      RowShardElements(c, w, scale, rank, j, i, o, k);
    }
    SameElements(c, t, o, u, InWhole(rank, j, o), x);
  }

  lemma SameElements(c: Codec, t: Tensor, o: nat, t': Tensor, o': nat, x: nat -> real)
    requires t.i == t'.i && forall k: nat :: k < t.i ==> Dequant(c, t, o, k) == Dequant(c, t', o', k)
    ensures Product(c, t, o, x) == Product(c, t', o', x)
  {
    hide Dequant, Sum;
    SumEqual(t.i, RowTerms(c, t, o, x), RowTerms(c, t', o', x));
  }

  /** A shard's inner units are its part of the whole expert's. */
  lemma ShardInner(c: Codec, b: Bytes, e: Expert, past: nat -> nat, hidden: nat, j: nat, rank: nat, x: nat -> real, k: nat)
    requires rank < 2 && Whole(b, hidden, 2 * j) && IsShard(e, b, past, hidden, j, rank) && k < j
    ensures Inner(c, e, x)(k) == Inner(c, WholeExpert(b, hidden, 2 * j), x)(InWhole(rank, j, k))
  {
    hide RowShard, Upload, Product, InWhole;
    ShardProduct(c, b.gate, b.gateScale, rank, j, hidden, k, x);
    ShardProduct(c, b.up, b.upScale, rank, j, hidden, k, x);
  }

  /** The terms of a shard's output are its part of the whole output's terms. */
  lemma ShardTerms(c: Codec, b: Bytes, e: Expert, past: nat -> nat, hidden: nat, j: nat, rank: nat,
                   x: nat -> real, o: nat, k: nat)
    requires rank < 2 && j > 0 && j % 32 == 0 && Whole(b, hidden, 2 * j) && k < j && o < hidden
    requires IsShard(e, b, past, hidden, j, rank)
    ensures var whole := WholeExpert(b, hidden, 2 * j);
            RowTerms(c, e.down, o, Inner(c, e, x))(k) == RowTerms(c, whole.down, o, Inner(c, whole, x))(InWhole(rank, j, k))
  {
    hide RowShard, Upload, Dequant, Inner, IsColumnShard, InWhole;
    ShardInner(c, b, e, past, hidden, j, rank, x, k);
    ColumnShardElements(c, e.down, b.down, b.downScale, past, rank, hidden, j, o, k);
  }

  /** The outputs of the two shards add up to the output of the whole expert. */
  lemma ShardsAdd(c: Codec, b: Bytes, e0: Expert, e1: Expert, past: nat -> nat, hidden: nat, j: nat, x: nat -> real, o: nat)
    requires j > 0 && j % 32 == 0 && Whole(b, hidden, 2 * j) && o < hidden
    requires IsShard(e0, b, past, hidden, j, 0) && IsShard(e1, b, past, hidden, j, 1)
    ensures Output(c, e0, x, o) + Output(c, e1, x, o) == Output(c, WholeExpert(b, hidden, 2 * j), x, o)
  {
    hide *;
    var whole := WholeExpert(b, hidden, 2 * j);
    var f, f0, f1 := RowTerms(c, whole.down, o, Inner(c, whole, x)), RowTerms(c, e0.down, o, Inner(c, e0, x)),
                     RowTerms(c, e1.down, o, Inner(c, e1, x));
    forall k: nat | k < j
      ensures f0(k) == f(k) && f1(k) == f(j + k)
    {
      ShardTerms(c, b, e0, past, hidden, j, 0, x, o, k);
      ShardTerms(c, b, e1, past, hidden, j, 1, x, o, k);
      InWholeIs(0, j, k);
      InWholeIs(1, j, k);
    }
    SumEqual(j, f0, f);
    SumsAdd(j, f, f1);
    WidthOf(b, e0, past, hidden, j, 0);
    WidthOf(b, e1, past, hidden, j, 1);
    OutputIs(c, e0, x, o);
    OutputIs(c, e1, x, o);
    OutputIs(c, whole, x, o);
  }

  lemma WidthOf(b: Bytes, e: Expert, past: nat -> nat, hidden: nat, j: nat, rank: nat)
    requires rank < 2 && Whole(b, hidden, 2 * j) && IsShard(e, b, past, hidden, j, rank)
    ensures e.down.i == j && e.down.o == hidden && WholeExpert(b, hidden, 2 * j).down.i == 2 * j
  {}

  lemma OutputIs(c: Codec, e: Expert, x: nat -> real, o: nat)
    ensures Output(c, e, x, o) == Sum(e.down.i, RowTerms(c, e.down, o, Inner(c, e, x)))
  {}

  lemma SumsAdd(j: nat, f: nat -> real, g: nat -> real)
    requires forall k: nat :: k < j ==> g(k) == f(j + k)
    ensures Sum(j, f) + Sum(j, g) == Sum(2 * j, f)
  {
    var late := (k: nat) => f(j + k);
    SumSplit(j, j, f);
    SumEqual(j, g, late);
    SumEqual(j, late, (i: nat) => f(j + i));
  }

  // ---------------------------------------------------------------------------------------------
  // Widths at which the halves do not add up
  // ---------------------------------------------------------------------------------------------

  /** Nibble 2 and both scale bytes are positive, and so is the activation of positive values. */
  ghost predicate Codes(c: Codec) {
    && c.nibble(2) > 0.0 && 0.0 < c.scale(127) < c.scale(128)
    && forall g, u :: g > 0.0 && u > 0.0 ==> c.act(g, u) > 0.0
  }

  /** The outputs of the shards e0 and e1 add up for this input and row. */
  ghost predicate Adds(c: Codec, b: Bytes, e0: Expert, e1: Expert, past: nat -> nat, hidden: nat, j: nat,
                       x: nat -> real, o: nat) {
    Whole(b, hidden, 2 * j) && o < hidden && IsShard(e0, b, past, hidden, j, 0) && IsShard(e1, b, past, hidden, j, 1) ==>
      Output(c, e0, x, o) + Output(c, e1, x, o) == Output(c, WholeExpert(b, hidden, 2 * j), x, o)
  }

  /** The two halves of every expert add up exactly when the half width is a multiple of 32. */
  lemma HalvesAddWhen(c: Codec, past: nat -> nat, hidden: nat, j: nat)
    requires Codes(c) && hidden > 0 && j > 0 && j % 2 == 0
    ensures (forall b, e0, e1, x, o: nat :: Adds(c, b, e0, e1, past, hidden, j, x, o)) <==> j % 32 == 0
  {
    hide Output, IsShard, Whole, Codes;
    if j % 32 == 0 {
      forall b, e0, e1, x, o: nat
        ensures Adds(c, b, e0, e1, past, hidden, j, x, o)
      {
        if Whole(b, hidden, 2 * j) && o < hidden && IsShard(e0, b, past, hidden, j, 0) && IsShard(e1, b, past, hidden, j, 1) {
          ShardsAdd(c, b, e0, e1, past, hidden, j, x, o);
        }
      }
    } else {
      HalvesDiffer(c, past, hidden, j);
      var v: nat :| v in {127, 128} && DoesNotAdd(c, past, hidden, j, v);
      NotAdded(c, past, hidden, j, v);
    }
  }

  /** With this byte as the scale of the group that the cut goes through, the halves do not add up on an input of ones. */
  ghost predicate DoesNotAdd(c: Codec, past: nat -> nat, hidden: nat, j: nat, v: nat) {
    Whole(CutBytes(hidden, j, v), hidden, 2 * j) &&
    var b := CutBytes(hidden, j, v);
    Output(c, ShardOf(b, past, hidden, j, 0), Ones(), 0) + Output(c, ShardOf(b, past, hidden, j, 1), Ones(), 0) !=
    Output(c, WholeExpert(b, hidden, 2 * j), Ones(), 0)
  }

  lemma NotAdded(c: Codec, past: nat -> nat, hidden: nat, j: nat, v: nat)
    requires hidden > 0 && DoesNotAdd(c, past, hidden, j, v)
    ensures exists b, e0, e1, x, o: nat :: !Adds(c, b, e0, e1, past, hidden, j, x, o)
  {
    hide Output, IsShard, Whole, CutBytes, ShardOf;
    var b := CutBytes(hidden, j, v);
    var e0, e1 := ShardOf(b, past, hidden, j, 0), ShardOf(b, past, hidden, j, 1);
    ShardOfIs(b, past, hidden, j, 0);
    ShardOfIs(b, past, hidden, j, 1);
    assert !Adds(c, b, e0, e1, past, hidden, j, Ones(), 0);
  }

  /** The shard of a rank, as a value. */
  function ShardOf(b: Bytes, past: nat -> nat, hidden: nat, j: nat, rank: nat): Expert
    requires rank < 2 && Whole(b, hidden, 2 * j)
  {
    Expert(RowShard(b.gate, b.gateScale, rank, j, hidden), RowShard(b.up, b.upScale, rank, j, hidden),
           Tensor(hidden, j, Columns(Memory(b.down, past), rank, hidden, PackedStride(j), PackedStride(2 * j)),
                  if b.downScale.Some?
                  then Columns(Memory(b.downScale.value, past), rank, hidden, Groups(j), Groups(2 * j))
                  else seq(hidden * Groups(j), k => 127)))
  }

  lemma ShardOfIs(b: Bytes, past: nat -> nat, hidden: nat, j: nat, rank: nat)
    requires rank < 2 && Whole(b, hidden, 2 * j)
    ensures IsShard(ShardOf(b, past, hidden, j, rank), b, past, hidden, j, rank)
  {
    hide Columns, Memory, Whole, Groups, PackedStride, RowShard;
    ColumnsAre(Memory(b.down, past), rank, hidden, PackedStride(j), PackedStride(2 * j));
    if b.downScale.Some? {
      ColumnsAre(Memory(b.downScale.value, past), rank, hidden, Groups(j), Groups(2 * j));
    }
  }

  /** Every nibble is 2; one scale of the first down row is v, that of the group which the cut goes through. */
  function CutBytes(hidden: nat, j: nat, v: nat): Bytes {
    var rows := seq(2 * j * PackedStride(hidden), k => 34);
    Bytes(rows, None, rows, None, seq(hidden * PackedStride(2 * j), k => 34), Some(CutScales(hidden, j, v)))
  }

  function CutScales(hidden: nat, j: nat, v: nat): (s: seq<nat>)
    ensures |s| == hidden * Groups(2 * j)
  {
    seq(hidden * Groups(2 * j), k => if k == j / 32 then v else 127)
  }

  function Ones(): nat -> real {
    (i: nat) => 1.0
  }

  lemma CutBytesWhole(hidden: nat, j: nat, v: nat)
    ensures Whole(CutBytes(hidden, j, v), hidden, 2 * j)
  {
    hide PackedStride, Groups;
  }

  /** The byte that a shard has as the scale of its column k in the first row. */
  function ShardByte(past: nat -> nat, hidden: nat, j: nat, v: nat, rank: nat, k: nat): nat {
    Memory(CutScales(hidden, j, v), past)(rank * Groups(j) + k / 32)
  }

  /** The terms of the whole expert's first output. */
  function CutTerms(c: Codec, hidden: nat, j: nat, v: nat): nat -> real
    requires Whole(CutBytes(hidden, j, v), hidden, 2 * j)
  {
    var whole := WholeExpert(CutBytes(hidden, j, v), hidden, 2 * j);
    RowTerms(c, whole.down, 0, Inner(c, whole, Ones()))
  }

  /** The terms of a shard's first output. */
  function HalfTerms(c: Codec, past: nat -> nat, hidden: nat, j: nat, v: nat, rank: nat): nat -> real
    requires rank < 2 && Whole(CutBytes(hidden, j, v), hidden, 2 * j)
  {
    var e := ShardOf(CutBytes(hidden, j, v), past, hidden, j, rank);
    RowTerms(c, e.down, 0, Inner(c, e, Ones()))
  }

  function CutInner(c: Codec, hidden: nat, j: nat): nat -> real
    requires Whole(CutBytes(hidden, j, 127), hidden, 2 * j)
  {
    Inner(c, WholeExpert(CutBytes(hidden, j, 127), hidden, 2 * j), Ones())
  }

  /**
   The second half never reads the scale of the group that the cut goes through, and the whole expert
   does. So of two values of that scale at most one can make the halves add up.
   */
  lemma HalvesDiffer(c: Codec, past: nat -> nat, hidden: nat, j: nat)
    requires Codes(c) && hidden > 0 && j > 0 && j % 2 == 0 && j % 32 != 0
    ensures exists v: nat :: v in {127, 128} && DoesNotAdd(c, past, hidden, j, v)
  {
    hide *;
    CutBytesWhole(hidden, j, 127);
    CutBytesWhole(hidden, j, 128);
    var small, large := CutTerms(c, hidden, j, 127), CutTerms(c, hidden, j, 128);
    var rest, rest' := HalfTerms(c, past, hidden, j, 127, 1), HalfTerms(c, past, hidden, j, 128, 1);
    forall k: nat | k < j
      ensures rest(k) == rest'(k)
      ensures Late(small, j)(k) <= Late(large, j)(k) && (k == 0 ==> Late(small, j)(k) < Late(large, j)(k))
    {
      SecondHalfSame(c, past, hidden, j, k);
      LargerByte(c, hidden, j, j + k);
      CutColumn(j, k);
      LateIs(small, j, k);
      LateIs(large, j, k);
    }
    SumEqual(j, rest, rest');
    SumLate(j, small, large);
    CutOutputs(c, past, hidden, j, 127);
    CutOutputs(c, past, hidden, j, 128);
    assert DoesNotAdd(c, past, hidden, j, 127) || DoesNotAdd(c, past, hidden, j, 128);
    assert 127 in {127, 128} && 128 in {127, 128};
  }

  lemma CutColumn(j: nat, k: nat)
    ensures k == 0 ==> (j + k) / 32 == j / 32
  {}

  lemma LateIs(f: nat -> real, j: nat, k: nat)
    ensures Late(f, j)(k) == f(j + k)
  {}

  /** The terms from the j-th on. */
  function Late(f: nat -> real, j: nat): nat -> real {
    (k: nat) => f(j + k)
  }

  lemma SumLate(j: nat, f: nat -> real, g: nat -> real)
    requires j > 0 && (forall k: nat :: k < j ==> Late(f, j)(k) <= Late(g, j)(k)) && Late(f, j)(0) < Late(g, j)(0)
    ensures Sum(2 * j, f) - Sum(j, f) < Sum(2 * j, g) - Sum(j, g)
  {
    SumSplit(j, j, f);
    SumSplit(j, j, g);
    SumEqual(j, Late(f, j), (i: nat) => f(j + i));
    SumEqual(j, Late(g, j), (i: nat) => g(j + i));
    SumLess(j, Late(f, j), Late(g, j));
  }

  /** When the halves add up, the second half's output is that of the second half of the terms. */
  lemma CutOutputs(c: Codec, past: nat -> nat, hidden: nat, j: nat, v: nat)
    requires hidden > 0 && j > 0 && j % 2 == 0 && Whole(CutBytes(hidden, j, v), hidden, 2 * j)
    requires v == 127 || v == 128
    ensures DoesNotAdd(c, past, hidden, j, v) <==>
            Sum(j, HalfTerms(c, past, hidden, j, v, 1)) !=
            Sum(2 * j, CutTerms(c, hidden, j, v)) - Sum(j, CutTerms(c, hidden, j, v))
  {
    hide Output, RowTerms, Inner, Whole, CutBytes, ShardOf, Sum, CutTerms, HalfTerms, WholeExpert, IsShard;
    var b := CutBytes(hidden, j, v);
    var e0, e1, whole := ShardOf(b, past, hidden, j, 0), ShardOf(b, past, hidden, j, 1), WholeExpert(b, hidden, 2 * j);
    ShardOfIs(b, past, hidden, j, 0);
    ShardOfIs(b, past, hidden, j, 1);
    WidthOf(b, e0, past, hidden, j, 0);
    WidthOf(b, e1, past, hidden, j, 1);
    TermsAre(c, past, hidden, j, v);
    OutputIs(c, e0, Ones(), 0);
    OutputIs(c, e1, Ones(), 0);
    OutputIs(c, whole, Ones(), 0);
    forall k: nat | k < j
      ensures HalfTerms(c, past, hidden, j, v, 0)(k) == CutTerms(c, hidden, j, v)(k)
    {
      FirstHalfSame(c, past, hidden, j, v, k);
    }
    SumEqual(j, HalfTerms(c, past, hidden, j, v, 0), CutTerms(c, hidden, j, v));
  }

  lemma TermsAre(c: Codec, past: nat -> nat, hidden: nat, j: nat, v: nat)
    requires Whole(CutBytes(hidden, j, v), hidden, 2 * j)
    ensures var b := CutBytes(hidden, j, v);
            var e0, e1, whole := ShardOf(b, past, hidden, j, 0), ShardOf(b, past, hidden, j, 1), WholeExpert(b, hidden, 2 * j);
            && HalfTerms(c, past, hidden, j, v, 0) == RowTerms(c, e0.down, 0, Inner(c, e0, Ones()))
            && HalfTerms(c, past, hidden, j, v, 1) == RowTerms(c, e1.down, 0, Inner(c, e1, Ones()))
            && CutTerms(c, hidden, j, v) == RowTerms(c, whole.down, 0, Inner(c, whole, Ones()))
  {
    hide RowTerms, Inner, Whole, CutBytes, ShardOf, WholeExpert;
  }

  lemma FirstHalfSame(c: Codec, past: nat -> nat, hidden: nat, j: nat, v: nat, k: nat)
    requires hidden > 0 && j > 0 && j % 2 == 0 && k < j && (v == 127 || v == 128)
    requires Whole(CutBytes(hidden, j, v), hidden, 2 * j)
    ensures HalfTerms(c, past, hidden, j, v, 0)(k) == CutTerms(c, hidden, j, v)(k)
  {
    hide *;
    HalfTermIs(c, past, hidden, j, v, 0, k);
    CutTermIs(c, hidden, j, v, k);
    FirstByte(past, hidden, j, v, k);
    InWholeIs(0, j, k);
  }

  lemma SecondHalfSame(c: Codec, past: nat -> nat, hidden: nat, j: nat, k: nat)
    requires hidden > 0 && j > 0 && j % 2 == 0 && j % 32 != 0 && k < j
    requires Whole(CutBytes(hidden, j, 127), hidden, 2 * j) && Whole(CutBytes(hidden, j, 128), hidden, 2 * j)
    ensures HalfTerms(c, past, hidden, j, 127, 1)(k) == HalfTerms(c, past, hidden, j, 128, 1)(k)
  {
    hide *;
    HalfTermIs(c, past, hidden, j, 127, 1, k);
    HalfTermIs(c, past, hidden, j, 128, 1, k);
    SecondByte(past, hidden, j, k);
  }

  /** The terms of the whole expert grow with the byte, in the group that the cut goes through. */
  lemma LargerByte(c: Codec, hidden: nat, j: nat, y: nat)
    requires Codes(c) && hidden > 0 && y < 2 * j
    requires Whole(CutBytes(hidden, j, 127), hidden, 2 * j) && Whole(CutBytes(hidden, j, 128), hidden, 2 * j)
    ensures CutTerms(c, hidden, j, 127)(y) <= CutTerms(c, hidden, j, 128)(y)
    ensures y / 32 == j / 32 ==> CutTerms(c, hidden, j, 127)(y) < CutTerms(c, hidden, j, 128)(y)
  {
    hide *;
    CutTermIs(c, hidden, j, 127, y);
    CutTermIs(c, hidden, j, 128, y);
    InnerPositive(c, hidden, j, y);
    CodesOf(c);
    Larger(CutInner(c, hidden, j)(y), c.nibble(2), c.scale(127), c.scale(128));
  }

  lemma FirstByte(past: nat -> nat, hidden: nat, j: nat, v: nat, k: nat)
    requires hidden > 0 && j > 0 && k < j
    ensures ShardByte(past, hidden, j, v, 0, k) == if k / 32 == j / 32 then v else 127
  {
    ColumnBounds(2 * j, k);
    hide Groups;
    MulMonotone(1, hidden, Groups(2 * j));
  }

  lemma SecondByte(past: nat -> nat, hidden: nat, j: nat, k: nat)
    requires j % 32 != 0
    ensures ShardByte(past, hidden, j, 127, 1, k) == ShardByte(past, hidden, j, 128, 1, k)
  {
    assert Groups(j) > j / 32;
    hide Groups;
    assert |CutScales(hidden, j, 127)| == |CutScales(hidden, j, 128)|;
  }

  /** The inner units do not depend on the byte. */
  lemma SameInner(c: Codec, hidden: nat, j: nat, v: nat)
    requires Whole(CutBytes(hidden, j, v), hidden, 2 * j) && Whole(CutBytes(hidden, j, 127), hidden, 2 * j)
    ensures forall y: nat :: Inner(c, WholeExpert(CutBytes(hidden, j, v), hidden, 2 * j), Ones())(y) == CutInner(c, hidden, j)(y)
  {
    hide PackedStride, Groups, Product;
  }

  lemma HalfTermIs(c: Codec, past: nat -> nat, hidden: nat, j: nat, v: nat, rank: nat, k: nat)
    requires hidden > 0 && j > 0 && j % 2 == 0 && k < j && rank < 2
    requires Whole(CutBytes(hidden, j, v), hidden, 2 * j)
    ensures Whole(CutBytes(hidden, j, 127), hidden, 2 * j)
    ensures HalfTerms(c, past, hidden, j, v, rank)(k) ==
            CutInner(c, hidden, j)(InWhole(rank, j, k)) * (c.nibble(2) * c.scale(ShardByte(past, hidden, j, v, rank, k)))
  {
    hide *;
    var b := CutBytes(hidden, j, v);
    var e := ShardOf(b, past, hidden, j, rank);
    CutBytesWhole(hidden, j, 127);
    ShardOfIs(b, past, hidden, j, rank);
    TermsAre(c, past, hidden, j, v);
    ShardInner(c, b, e, past, hidden, j, rank, Ones(), k);
    SameInner(c, hidden, j, v);
    TermIs(c, e.down, 0, Inner(c, e, Ones()), k);
    DequantIs(c, e.down, 0, k);
    ShardNibble(past, e, hidden, j, v, rank, k);
    ShardScale(c, past, e, hidden, j, v, rank, k);
    RankIs(rank);
  }

  lemma RankIs(rank: nat)
    requires rank < 2
    ensures rank == 0 || rank == 1
  {}

  lemma CutTermIs(c: Codec, hidden: nat, j: nat, v: nat, y: nat)
    requires hidden > 0 && y < 2 * j && Whole(CutBytes(hidden, j, v), hidden, 2 * j)
    ensures Whole(CutBytes(hidden, j, 127), hidden, 2 * j)
    ensures CutTerms(c, hidden, j, v)(y) ==
            CutInner(c, hidden, j)(y) * (c.nibble(2) * c.scale(if y / 32 == j / 32 then v else 127))
  {
    hide *;
    var whole := WholeExpert(CutBytes(hidden, j, v), hidden, 2 * j);
    CutBytesWhole(hidden, j, 127);
    TermsAre(c, (k: nat) => 0, hidden, j, v);
    SameInner(c, hidden, j, v);
    TermIs(c, whole.down, 0, Inner(c, whole, Ones()), y);
    WholeDown(c, hidden, j, v, y);
  }

  lemma TermIs(c: Codec, t: Tensor, o: nat, x: nat -> real, i: nat)
    ensures RowTerms(c, t, o, x)(i) == x(i) * Dequant(c, t, o, i)
  {}

  lemma CodesOf(c: Codec)
    requires Codes(c)
    ensures c.nibble(2) > 0.0 && 0.0 < c.scale(127) < c.scale(128)
  {}

  lemma Larger(h: real, n: real, a: real, b: real)
    requires h > 0.0 && n > 0.0 && a < b
    ensures h * (n * a) < h * (n * b)
  {
    assert n * b - n * a == n * (b - a);
    assert h * (n * b) - h * (n * a) == h * (n * (b - a));
  }

  lemma InnerPositive(c: Codec, hidden: nat, j: nat, y: nat)
    requires Codes(c) && hidden > 0 && y < 2 * j && Whole(CutBytes(hidden, j, 127), hidden, 2 * j)
    ensures CutInner(c, hidden, j)(y) > 0.0
  {
    hide PackedStride, Groups, Product;
    var whole := WholeExpert(CutBytes(hidden, j, 127), hidden, 2 * j);
    RowPositive(c, whole.gate, y);
    RowPositive(c, whole.up, y);
  }

  /** Every byte of a tensor is the given one. */
  predicate AllBytes(s: seq<nat>, v: nat) {
    forall k :: 0 <= k < |s| ==> s[k] == v
  }

  lemma RowPositive(c: Codec, t: Tensor, o: nat)
    requires Codes(c) && Sized(t) && o < t.o && t.i > 0 && AllBytes(t.packed, 34) && AllBytes(t.scale, 127)
    ensures Product(c, t, o, Ones()) > 0.0
  {
    hide PackedStride, Groups, Index;
    forall i: nat | i < t.i
      ensures RowTerms(c, t, o, Ones())(i) > 0.0
    {
      ColumnBounds(t.i, i);
      InRow(o, t.o, PackedStride(t.i), i / 2);
      InRow(o, t.o, Groups(t.i), i / 32);
      assert Dequant(c, t, o, i) == c.nibble(2) * c.scale(127);
    }
    SumPositive(t.i, RowTerms(c, t, o, Ones()));
  }

  lemma WholeDown(c: Codec, hidden: nat, j: nat, v: nat, y: nat)
    requires hidden > 0 && y < 2 * j && Whole(CutBytes(hidden, j, v), hidden, 2 * j)
    ensures Dequant(c, WholeExpert(CutBytes(hidden, j, v), hidden, 2 * j).down, 0, y) ==
            c.nibble(2) * c.scale(if y / 32 == j / 32 then v else 127)
  {
    hide *;
    var t := WholeExpert(CutBytes(hidden, j, v), hidden, 2 * j).down;
    ColumnBounds(2 * j, y);
    WholeDownIs(hidden, j, v);
    InRow(0, hidden, PackedStride(2 * j), y / 2);
    InRow(0, hidden, Groups(2 * j), y / 32);
    IndexFirst(Groups(2 * j), y / 32);
    DequantIs(c, t, 0, y);
    NibbleOf(t, y);
    ScaleOf(c, t, y);
  }

  lemma WholeDownIs(hidden: nat, j: nat, v: nat)
    requires Whole(CutBytes(hidden, j, v), hidden, 2 * j)
    ensures var t := WholeExpert(CutBytes(hidden, j, v), hidden, 2 * j).down;
            && t.i == 2 * j && |t.scale| == hidden * Groups(2 * j)
            && (forall k: nat :: k < hidden * PackedStride(2 * j) ==> ByteAt(t.packed, k) == 34)
            && (forall k: nat :: k < |t.scale| ==> ByteAt(t.scale, k) == if k == j / 32 then v else 127)
  {
    hide PackedStride, Groups;
  }

  lemma DequantIs(c: Codec, t: Tensor, o: nat, i: nat)
    ensures Dequant(c, t, o, i) == c.nibble(NibbleAt(t, o, i)) * ScaleAt(c, t, o, i)
  {}

  lemma ShardNibble(past: nat -> nat, e: Expert, hidden: nat, j: nat, v: nat, rank: nat, k: nat)
    requires hidden > 0 && j > 0 && j % 2 == 0 && rank < 2 && k < j
    requires Whole(CutBytes(hidden, j, v), hidden, 2 * j) && IsShard(e, CutBytes(hidden, j, v), past, hidden, j, rank)
    ensures NibbleAt(e.down, 0, k) == 2
  {
    hide *;
    var at := rank * PackedStride(j) + k / 2;
    ByteInRow(j, rank, k);
    InRow(0, hidden, PackedStride(2 * j), at);
    DownOfShard(past, e, hidden, j, v, rank);
    var memory := Memory(CutBytes(hidden, j, v).down, past);
    ColumnOf(e.down.packed, memory, rank, hidden, PackedStride(j), PackedStride(2 * j), 0, k / 2);
    DownBytes(hidden, j, v, past, Index(0, PackedStride(2 * j), at));
    NibbleOf(e.down, k);
  }

  lemma ByteInRow(j: nat, rank: nat, k: nat)
    requires j % 2 == 0 && rank < 2 && k < j
    ensures k / 2 < PackedStride(j) && rank * PackedStride(j) + k / 2 < PackedStride(2 * j)
  {
    assert rank == 0 || rank == 1;
  }

  lemma NibbleOf(t: Tensor, k: nat)
    requires ByteAt(t.packed, Index(0, PackedStride(t.i), k / 2)) == 34
    ensures NibbleAt(t, 0, k) == 2
  {}

  lemma DownBytes(hidden: nat, j: nat, v: nat, past: nat -> nat, k: nat)
    requires k < hidden * PackedStride(2 * j)
    ensures Memory(CutBytes(hidden, j, v).down, past)(k) == 34
  {
    hide PackedStride, Groups;
  }

  /** What a shard of these bytes holds of the down matrix. */
  lemma DownOfShard(past: nat -> nat, e: Expert, hidden: nat, j: nat, v: nat, rank: nat)
    requires rank < 2 && Whole(CutBytes(hidden, j, v), hidden, 2 * j)
    requires IsShard(e, CutBytes(hidden, j, v), past, hidden, j, rank)
    ensures e.down.i == j && |e.down.scale| == hidden * Groups(j)
    ensures IsColumns(e.down.packed, Memory(CutBytes(hidden, j, v).down, past), rank, hidden,
                      PackedStride(j), PackedStride(2 * j))
    ensures IsColumns(e.down.scale, Memory(CutScales(hidden, j, v), past), rank, hidden, Groups(j), Groups(2 * j))
  {
    hide IsColumns, Memory, PackedStride, Groups, Whole, RowShard;
  }

  lemma ColumnOf(r: seq<nat>, w: nat -> nat, rank: nat, rows: nat, half: nat, full: nat, o: nat, x: nat)
    requires IsColumns(r, w, rank, rows, half, full) && o < rows && x < half
    ensures ByteAt(r, Index(o, half, x)) == w(Index(o, full, rank * half + x))
  {}

  lemma ShardScale(c: Codec, past: nat -> nat, e: Expert, hidden: nat, j: nat, v: nat, rank: nat, k: nat)
    requires hidden > 0 && j > 0 && rank < 2 && k < j
    requires Whole(CutBytes(hidden, j, v), hidden, 2 * j) && IsShard(e, CutBytes(hidden, j, v), past, hidden, j, rank)
    ensures ScaleAt(c, e.down, 0, k) == c.scale(ShardByte(past, hidden, j, v, rank, k))
  {
    hide *;
    ColumnBounds(j, k);
    InRow(0, hidden, Groups(j), k / 32);
    DownOfShard(past, e, hidden, j, v, rank);
    ColumnOf(e.down.scale, Memory(CutScales(hidden, j, v), past), rank, hidden, Groups(j), Groups(2 * j), 0, k / 32);
    IndexFirst(Groups(2 * j), rank * Groups(j) + k / 32);
    ScaleOf(c, e.down, k);
    ShardByteIs(past, hidden, j, v, rank, k);
  }

  lemma ShardByteIs(past: nat -> nat, hidden: nat, j: nat, v: nat, rank: nat, k: nat)
    ensures ShardByte(past, hidden, j, v, rank, k) == Memory(CutScales(hidden, j, v), past)(rank * Groups(j) + k / 32)
  {}

  lemma IndexFirst(n: nat, x: nat)
    ensures Index(0, n, x) == x
  {}

  lemma ScaleOf(c: Codec, t: Tensor, k: nat)
    requires Index(0, Groups(t.i), k / 32) < |t.scale|
    ensures ScaleAt(c, t, 0, k) == c.scale(ByteAt(t.scale, Index(0, Groups(t.i), k / 32)))
  {}
}
