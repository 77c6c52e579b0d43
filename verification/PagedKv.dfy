/**
 The paged KV cache: a free list of physical blocks, a flat (slot, layer, logical block) table, and a
 flat buffer of rows. It is proved to be a faithful store of one growing list of K rows and one of V
 rows per slot and layer, with every physical block held exactly once.
 */
module PagedKv {
  import opened Arith

  type Vec = seq<real>

  /** The compile-time dimensions the allocator indexes with. */
  datatype Dims = Dims(layers: nat, maxSeq: nat, blockSize: nat, batch: nat)

  predicate ValidDims(d: Dims) {
    d.blockSize > 0 && d.maxSeq % d.blockSize == 0
  }

  function MaxBlocks(d: Dims): nat
    requires ValidDims(d)
  {
    d.maxSeq / d.blockSize
  }

  function Entries(d: Dims): nat
    requires ValidDims(d)
  {
    d.batch * d.layers * MaxBlocks(d)
  }

  function BlockIndex(d: Dims, slot: nat, layer: nat, logical: nat): nat
    requires ValidDims(d)
  {
    slot * d.layers * MaxBlocks(d) + layer * MaxBlocks(d) + logical
  }

  predicate ValidPlace(d: Dims, s: nat, l: nat, j: nat)
    requires ValidDims(d)
  {
    s < d.batch && l < d.layers && j < MaxBlocks(d)
  }

  // ---------------------------------------------------------------------------------------------
  // Index arithmetic
  // ---------------------------------------------------------------------------------------------

  lemma IndexForm(d: Dims, s: nat, l: nat, j: nat)
    requires ValidDims(d)
    ensures BlockIndex(d, s, l, j) == (s * d.layers + l) * MaxBlocks(d) + j
  {
    var m := MaxBlocks(d);
    assert (s * d.layers + l) * m == s * d.layers * m + l * m;
  }

  lemma IndexInRange(d: Dims, s: nat, l: nat, j: nat)
    requires ValidDims(d) && ValidPlace(d, s, l, j)
    ensures BlockIndex(d, s, l, j) < Entries(d)
  {
    IndexForm(d, s, l, j);
    DigitsBelow(d.layers, s, l, d.batch);
    DigitsBelow(MaxBlocks(d), s * d.layers + l, j, d.batch * d.layers);
  }

  /** The table never maps two places to one entry. */
  lemma IndexInjective(d: Dims, s: nat, l: nat, j: nat, s': nat, l': nat, j': nat)
    requires ValidDims(d) && ValidPlace(d, s, l, j) && ValidPlace(d, s', l', j')
    requires BlockIndex(d, s, l, j) == BlockIndex(d, s', l', j')
    ensures s == s' && l == l' && j == j'
  {
    var m := MaxBlocks(d);
    assert (s * d.layers + l) * m + j == (s' * d.layers + l') * m + j' by {
      IndexForm(d, s, l, j);
      IndexForm(d, s', l', j');
    }
    hide BlockIndex, MaxBlocks;
    DigitsUnique(m, s * d.layers + l, j, s' * d.layers + l', j');
    DigitsUnique(d.layers, s, l, s', l');
  }

  /** How many blocks n rows need. */
  function Needs(d: Dims, n: nat): nat
    requires ValidDims(d)
  {
    (n + d.blockSize - 1) / d.blockSize
  }

  lemma BlocksDivide(d: Dims)
    requires ValidDims(d)
    ensures d.maxSeq == MaxBlocks(d) * d.blockSize && d.blockSize > 0
  {}

  /** What appending r rows within one block does to the number of blocks. */
  lemma ChunkArith(d: Dims, n: nat, r: nat)
    requires ValidDims(d) && 0 < r && n % d.blockSize + r <= d.blockSize && n + r <= d.maxSeq
    ensures var j, o := n / d.blockSize, n % d.blockSize;
            j < MaxBlocks(d) && Needs(d, n) == (if o == 0 then j else j + 1) && Needs(d, n + r) == j + 1
  {
    hide Needs, MaxBlocks;
    var j, o := n / d.blockSize, n % d.blockSize;
    NeedsIs(d, j, o, n);
    NeedsIs(d, j, o + r, n + r);
    BlocksDivide(d);
    MulMonotone(MaxBlocks(d), j, d.blockSize);
  }

  lemma NeedsIs(d: Dims, j: nat, o: nat, n: nat)
    requires ValidDims(d) && n == j * d.blockSize + o && o <= d.blockSize
    ensures Needs(d, n) == if o == 0 then j else j + 1
  {
    var b := d.blockSize;
    if o == 0 {
      QuotientIs(b, n + b - 1, j, b - 1);
    } else {
      assert (j + 1) * b == j * b + b;
      QuotientIs(b, n + b - 1, j + 1, o - 1);
    }
  }

  /** Where the i-th of the appended rows goes. */
  lemma ChunkRow(d: Dims, n: nat, i: nat)
    requires ValidDims(d) && n % d.blockSize + i < d.blockSize
    ensures (n + i) / d.blockSize == n / d.blockSize && (n + i) % d.blockSize == n % d.blockSize + i
  {
    var b := d.blockSize;
    assert n == (n / b) * b + n % b;
    QuotientIs(b, n + i, n / b, n % b + i);
  }

  // ---------------------------------------------------------------------------------------------
  // Row addresses: a block holds blockSize K rows, then blockSize V rows
  // ---------------------------------------------------------------------------------------------

  function KAddr(d: Dims, block: nat, o: nat): nat {
    block * (2 * d.blockSize) + o
  }

  function VAddr(d: Dims, block: nat, o: nat): nat {
    block * (2 * d.blockSize) + d.blockSize + o
  }

  // ---------------------------------------------------------------------------------------------
  // Every physical block is held exactly once
  // ---------------------------------------------------------------------------------------------

  /** The block table, the stack of free blocks, and the row buffer. An unused table entry is -1. */
  datatype Pool = Pool(table: seq<int>, free: seq<int>, kv: seq<Vec>)

  function Owned(table: seq<int>): multiset<int> {
    multiset(table)[-1 := 0]
  }

  function AllBlocks(nb: nat): multiset<int> {
    multiset(seq(nb, i => i))
  }

  /** Conservation: the free list and the table together hold each block exactly once. */
  predicate Conserved(table: seq<int>, free: seq<int>, nb: nat) {
    multiset(free) + Owned(table) == AllBlocks(nb)
  }

  lemma {:induction false} AllBlocksCount(nb: nat, b: int)
    ensures AllBlocks(nb)[b] == if 0 <= b < nb then 1 else 0
  {
    if nb > 0 {
      AllBlocksCount(nb - 1, b);
      assert seq(nb, i => i) == seq(nb - 1, i => i) + [nb - 1];
    }
  }

  /** An owned entry is a block number, and no other entry and no free block is the same block. */
  lemma EntryUnique(table: seq<int>, free: seq<int>, nb: nat, i: nat)
    requires Conserved(table, free, nb) && i < |table| && table[i] != -1
    ensures 0 <= table[i] < nb && table[i] !in free
    ensures forall j :: 0 <= j < |table| && j != i ==> table[j] != table[i]
  {
    var b := table[i];
    AllBlocksCount(nb, b);
    var rest := table[..i] + table[i + 1..];
    assert table == table[..i] + [b] + table[i + 1..];
    assert multiset(table) == multiset(rest) + multiset{b};
    assert Owned(table)[b] == multiset(rest)[b] + 1;
    assert b !in rest;
    forall j | 0 <= j < |table| && j != i
      ensures table[j] != b
    {
      assert table[j] == rest[if j < i then j else j - 1];
    }
  }

  /** A free block is a block number, and neither in the table nor twice in the free list. */
  lemma FreeUnique(table: seq<int>, free: seq<int>, nb: nat)
    requires Conserved(table, free, nb) && free != []
    ensures var b := free[|free| - 1];
            0 <= b < nb && b !in table && b !in free[..|free| - 1]
  {
    var b := free[|free| - 1];
    AllBlocksCount(nb, b);
    assert free == free[..|free| - 1] + [b];
    if b != -1 {
      assert Owned(table)[b] == multiset(table)[b];
    }
  }

  lemma {:induction false} AllBlocksSize(nb: nat)
    ensures |AllBlocks(nb)| == nb
  {
    assert |multiset(seq(nb, i => i))| == |seq(nb, i => i)|;
  }

  /** With a block for every table entry, an unused entry means that a block is free. */
  lemma FreeNotEmpty(table: seq<int>, free: seq<int>, nb: nat, i: nat)
    requires Conserved(table, free, nb) && |table| <= nb && i < |table| && table[i] == -1
    ensures free != []
  {
    AllBlocksSize(nb);
    assert multiset(table)[-1] > 0;
    assert |Owned(table)| == |multiset(table)| - multiset(table)[-1];
    assert |multiset(table)| == |table|;
  }

  lemma TakeConserves(table: seq<int>, free: seq<int>, nb: nat, i: nat)
    requires Conserved(table, free, nb) && free != [] && i < |table| && table[i] == -1
    ensures Conserved(table[i := free[|free| - 1]], free[..|free| - 1], nb)
  {
    var b := free[|free| - 1];
    FreeUnique(table, free, nb);
    assert free == free[..|free| - 1] + [b];
    assert multiset(table[i := b]) == multiset(table) - multiset{-1} + multiset{b};
    assert Owned(table[i := b]) == Owned(table) + multiset{b};
  }

  lemma GiveConserves(table: seq<int>, free: seq<int>, nb: nat, i: nat)
    requires Conserved(table, free, nb) && i < |table| && table[i] != -1
    ensures Conserved(table[i := -1], free + [table[i]], nb)
  {
    var b := table[i];
    assert multiset(table[i := -1]) == multiset(table) - multiset{b} + multiset{-1};
    assert Owned(table) == Owned(table[i := -1]) + multiset{b};
  }

  // ---------------------------------------------------------------------------------------------
  // The pool represents one list of K rows and one of V rows per slot and layer
  // ---------------------------------------------------------------------------------------------

  /** The rows of one slot: per layer, the K rows and the V rows in token order. */
  datatype Lists = Lists(k: seq<seq<Vec>>, v: seq<seq<Vec>>)

  predicate ListsShape(d: Dims, ls: Lists) {
    |ls.k| == |ls.v| == d.layers && forall l :: 0 <= l < d.layers ==> |ls.k[l]| == |ls.v[l]| <= d.maxSeq
  }

  function NoRows(d: Dims): Lists {
    Lists(seq(d.layers, l => []), seq(d.layers, l => []))
  }

  function BlockAt(d: Dims, table: seq<int>, s: nat, l: nat, j: nat): int
    requires ValidDims(d) && |table| == Entries(d) && ValidPlace(d, s, l, j)
  {
    IndexInRange(d, s, l, j);
    table[BlockIndex(d, s, l, j)]
  }

  /** The slot owns exactly the first `count` logical blocks of the layer. */
  predicate OwnsFirst(d: Dims, table: seq<int>, s: nat, l: nat, count: nat)
    requires ValidDims(d) && |table| == Entries(d) && s < d.batch && l < d.layers
  {
    forall j: nat :: j < MaxBlocks(d) ==> (BlockAt(d, table, s, l, j) != -1 <==> j < count)
  }

  /** Row p of the layer is stored at its logical block and offset, K and V. */
  predicate RowStored(d: Dims, pool: Pool, s: nat, l: nat, p: nat, k: Vec, v: Vec)
    requires ValidDims(d) && |pool.table| == Entries(d) && s < d.batch && l < d.layers
  {
    var j, o := p / d.blockSize, p % d.blockSize;
    j < MaxBlocks(d) &&
    var b := BlockAt(d, pool.table, s, l, j);
    b >= 0 && KAddr(d, b, o) < |pool.kv| && VAddr(d, b, o) < |pool.kv| &&
    pool.kv[KAddr(d, b, o)] == k && pool.kv[VAddr(d, b, o)] == v
  }

  predicate LayerStored(d: Dims, pool: Pool, s: nat, l: nat, ks: seq<Vec>, vs: seq<Vec>)
    requires ValidDims(d) && |pool.table| == Entries(d) && s < d.batch && l < d.layers
  {
    |ks| == |vs| && OwnsFirst(d, pool.table, s, l, Needs(d, |ks|)) &&
    forall p: nat :: p < |ks| ==> RowStored(d, pool, s, l, p, ks[p], vs[p])
  }

  predicate Sized(d: Dims, nb: nat, pool: Pool)
    requires ValidDims(d)
  {
    |pool.table| == Entries(d) && |pool.kv| == nb * (2 * d.blockSize) && Conserved(pool.table, pool.free, nb)
  }

  predicate ViewsShape(d: Dims, views: seq<Lists>) {
    |views| == d.batch && forall s :: 0 <= s < d.batch ==> ListsShape(d, views[s])
  }

  /** The paged pool is a faithful representation of the lists. */
  predicate Refines(d: Dims, nb: nat, pool: Pool, views: seq<Lists>)
    requires ValidDims(d)
  {
    && Sized(d, nb, pool) && ViewsShape(d, views)
    && forall s: nat, l: nat :: s < d.batch && l < d.layers ==>
         LayerStored(d, pool, s, l, views[s].k[l], views[s].v[l])
  }

  // ---------------------------------------------------------------------------------------------
  // Appending rows
  // ---------------------------------------------------------------------------------------------

  function Blit(kv: seq<Vec>, a: nat, rows: seq<Vec>): seq<Vec>
    requires a + |rows| <= |kv|
  {
    kv[..a] + rows + kv[a + |rows|..]
  }

  function Append(ls: Lists, l: nat, ks: seq<Vec>, vs: seq<Vec>): Lists
    requires l < |ls.k| && l < |ls.v|
  {
    Lists(ls.k[l := ls.k[l] + ks], ls.v[l := ls.v[l] + vs])
  }

  /** Taking a block from the free list for a new last logical block of (s, l). */
  function Taken(d: Dims, pool: Pool, s: nat, l: nat, j: nat): (r: Pool)
    requires ValidDims(d) && |pool.table| == Entries(d) && ValidPlace(d, s, l, j) && pool.free != []
    ensures |r.table| == |pool.table| && r.kv == pool.kv
  {
    IndexInRange(d, s, l, j);
    Pool(pool.table[BlockIndex(d, s, l, j) := pool.free[|pool.free| - 1]], pool.free[..|pool.free| - 1], pool.kv)
  }

  lemma TakenAt(d: Dims, pool: Pool, s: nat, l: nat, j: nat, s': nat, l': nat, j': nat)
    requires ValidDims(d) && |pool.table| == Entries(d) && ValidPlace(d, s, l, j) && ValidPlace(d, s', l', j')
    requires pool.free != []
    ensures BlockAt(d, Taken(d, pool, s, l, j).table, s', l', j') ==
            if s' == s && l' == l && j' == j then pool.free[|pool.free| - 1] else BlockAt(d, pool.table, s', l', j')
  {
    IndexInRange(d, s, l, j);
    IndexInRange(d, s', l', j');
    if BlockIndex(d, s, l, j) == BlockIndex(d, s', l', j') {
      IndexInjective(d, s, l, j, s', l', j');
    }
  }

  /** Different places of the table never hold the same block. */
  lemma PlacesApart(d: Dims, nb: nat, pool: Pool, s: nat, l: nat, j: nat, s': nat, l': nat, j': nat)
    requires ValidDims(d) && Sized(d, nb, pool) && ValidPlace(d, s, l, j) && ValidPlace(d, s', l', j')
    requires BlockAt(d, pool.table, s, l, j) != -1
    ensures 0 <= BlockAt(d, pool.table, s, l, j) < nb
    ensures s != s' || l != l' || j != j' ==> BlockAt(d, pool.table, s, l, j) != BlockAt(d, pool.table, s', l', j')
  {
    IndexInRange(d, s, l, j);
    IndexInRange(d, s', l', j');
    EntryUnique(pool.table, pool.free, nb, BlockIndex(d, s, l, j));
    if BlockIndex(d, s, l, j) == BlockIndex(d, s', l', j') {
      IndexInjective(d, s, l, j, s', l', j');
    }
  }

  /** Where the appended rows are written: the block at the end of the list, from its fill offset on. */
  function Written(d: Dims, pool: Pool, b: nat, o: nat, ks: seq<Vec>, vs: seq<Vec>): Pool
    requires |ks| == |vs| && o + |ks| <= d.blockSize && VAddr(d, b, o) + |vs| <= |pool.kv|
  {
    pool.(kv := Blit(Blit(pool.kv, KAddr(d, b, o), ks), VAddr(d, b, o), vs))
  }

  /** Reading after such a write: the new rows at their offsets, every other address as before. */
  lemma ReadWritten(d: Dims, pool: Pool, b: nat, o: nat, ks: seq<Vec>, vs: seq<Vec>, b': nat, o': nat)
    requires |ks| == |vs| && o + |ks| <= d.blockSize && VAddr(d, b, o) + |vs| <= |pool.kv| && o' < d.blockSize
    requires KAddr(d, b', o') < |pool.kv| && VAddr(d, b', o') < |pool.kv|
    ensures var kv := Written(d, pool, b, o, ks, vs).kv;
            |kv| == |pool.kv| &&
            if b' == b && o <= o' < o + |ks| then kv[KAddr(d, b', o')] == ks[o' - o] && kv[VAddr(d, b', o')] == vs[o' - o]
            else kv[KAddr(d, b', o')] == pool.kv[KAddr(d, b', o')] && kv[VAddr(d, b', o')] == pool.kv[VAddr(d, b', o')]
  {
    var kv1 := Blit(pool.kv, KAddr(d, b, o), ks);
    var kv := Blit(kv1, VAddr(d, b, o), vs);
    BlitAt(pool.kv, KAddr(d, b, o), ks, KAddr(d, b', o'));
    BlitAt(pool.kv, KAddr(d, b, o), ks, VAddr(d, b', o'));
    BlitAt(kv1, VAddr(d, b, o), vs, KAddr(d, b', o'));
    BlitAt(kv1, VAddr(d, b, o), vs, VAddr(d, b', o'));
    BlockRanges(d, b, o, |ks|, b', o');
  }

  lemma BlitAt(kv: seq<Vec>, a: nat, rows: seq<Vec>, x: nat)
    requires a + |rows| <= |kv| && x < |kv|
    ensures |Blit(kv, a, rows)| == |kv|
    ensures Blit(kv, a, rows)[x] == if a <= x < a + |rows| then rows[x - a] else kv[x]
  {}

  /** An address is inside a written range exactly when it is that block, kind and offset. */
  lemma BlockRanges(d: Dims, b: nat, o: nat, r: nat, b': nat, o': nat)
    requires o + r <= d.blockSize && o' < d.blockSize
    ensures KAddr(d, b, o) <= KAddr(d, b', o') < KAddr(d, b, o) + r <==> b' == b && o <= o' < o + r
    ensures VAddr(d, b, o) <= VAddr(d, b', o') < VAddr(d, b, o) + r <==> b' == b && o <= o' < o + r
    ensures !(KAddr(d, b, o) <= VAddr(d, b', o') < KAddr(d, b, o) + r)
    ensures !(VAddr(d, b, o) <= KAddr(d, b', o') < VAddr(d, b, o) + r)
  {
    var n := 2 * d.blockSize;
    LeadingDigit(n, b, o + r, b', o');
    LeadingDigit(n, b', o', b, o);
    LeadingDigit(n, b, d.blockSize + o + r, b', o');
    LeadingDigit(n, b', d.blockSize + o', b, o);
    LeadingDigit(n, b, d.blockSize + o + r, b', d.blockSize + o');
    LeadingDigit(n, b', d.blockSize + o', b, d.blockSize + o);
    if o + r == n || d.blockSize + o + r == n {
      MulMonotone(b + 1, b', n);
      assert (b + 1) * n == b * n + n;
    }
  }

  /** The last logical block of a list that has n rows, and the fill of that block. */
  function Mid(d: Dims, pool: Pool, s: nat, l: nat, n: nat): (r: Pool)
    requires ValidDims(d) && |pool.table| == Entries(d) && ValidPlace(d, s, l, n / d.blockSize)
    requires n % d.blockSize == 0 ==> pool.free != []
    ensures |r.table| == |pool.table| && r.kv == pool.kv
  {
    if n % d.blockSize == 0 then Taken(d, pool, s, l, n / d.blockSize) else pool
  }

  /** Appending finds a free block exactly when it needs one, and an owned block otherwise. */
  lemma AppendPlace(d: Dims, nb: nat, pool: Pool, views: seq<Lists>, s: nat, l: nat, r: nat)
    requires ValidDims(d) && Refines(d, nb, pool, views) && s < d.batch && l < d.layers && Entries(d) <= nb
    requires var n := |views[s].k[l]|; 0 < r && n % d.blockSize + r <= d.blockSize && n + r <= d.maxSeq
    ensures var n := |views[s].k[l]|;
            && ValidPlace(d, s, l, n / d.blockSize)
            && (n % d.blockSize == 0 ==> BlockAt(d, pool.table, s, l, n / d.blockSize) == -1 && pool.free != [])
            && (n % d.blockSize != 0 ==> BlockAt(d, pool.table, s, l, n / d.blockSize) != -1)
  {
    var n := |views[s].k[l]|;
    ChunkArith(d, n, r);
    assert LayerStored(d, pool, s, l, views[s].k[l], views[s].v[l]);
    var j: nat := n / d.blockSize;
    assert BlockAt(d, pool.table, s, l, j) != -1 <==> j < Needs(d, n);
    if n % d.blockSize == 0 {
      IndexInRange(d, s, l, n / d.blockSize);
      FreeNotEmpty(pool.table, pool.free, nb, BlockIndex(d, s, l, n / d.blockSize));
    }
  }

  /** After the block was provided: ownership, sizes and stored rows, for every slot and layer. */
  lemma MidKeeps(d: Dims, nb: nat, pool: Pool, views: seq<Lists>, s: nat, l: nat, r: nat)
    requires ValidDims(d) && Refines(d, nb, pool, views) && s < d.batch && l < d.layers && Entries(d) <= nb
    requires var n := |views[s].k[l]|; 0 < r && n % d.blockSize + r <= d.blockSize && n + r <= d.maxSeq
    requires var n := |views[s].k[l]|;
             ValidPlace(d, s, l, n / d.blockSize) && (n % d.blockSize == 0 ==> pool.free != [])
    ensures var n := |views[s].k[l]|;
            var mid := Mid(d, pool, s, l, n);
            && Sized(d, nb, mid)
            && OwnsFirst(d, mid.table, s, l, n / d.blockSize + 1)
            && forall s': nat, l': nat :: s' < d.batch && l' < d.layers && (s' != s || l' != l) ==>
                 LayerStored(d, mid, s', l', views[s'].k[l'], views[s'].v[l'])
    ensures var n := |views[s].k[l]|;
            forall p: nat :: p < n ==> RowStored(d, Mid(d, pool, s, l, n), s, l, p, views[s].k[l][p], views[s].v[l][p])
  {
    hide Entries, BlockIndex, KAddr, VAddr, Needs, MaxBlocks, Taken, RowStored;
    var n := |views[s].k[l]|;
    AppendPlace(d, nb, pool, views, s, l, r);
    ChunkArith(d, n, r);
    assert LayerStored(d, pool, s, l, views[s].k[l], views[s].v[l]);
    if n % d.blockSize == 0 {
      var j := n / d.blockSize;
      TakenSized(d, nb, pool, s, l, j);
      SameLayerTaken(d, nb, pool, s, l, j, views[s].k[l], views[s].v[l]);
      forall s': nat, l': nat | s' < d.batch && l' < d.layers && (s' != s || l' != l)
        ensures LayerStored(d, Taken(d, pool, s, l, j), s', l', views[s'].k[l'], views[s'].v[l'])
      {
        OtherLayerTaken(d, pool, s, l, j, s', l', views[s'].k[l'], views[s'].v[l']);
      }
    }
  }

  lemma TakenSized(d: Dims, nb: nat, pool: Pool, s: nat, l: nat, j: nat)
    requires ValidDims(d) && Sized(d, nb, pool) && ValidPlace(d, s, l, j) && pool.free != []
    requires BlockAt(d, pool.table, s, l, j) == -1
    ensures Sized(d, nb, Taken(d, pool, s, l, j)) && pool.free[|pool.free| - 1] != -1
  {
    hide Entries, BlockIndex, MaxBlocks;
    IndexInRange(d, s, l, j);
    TakeConserves(pool.table, pool.free, nb, BlockIndex(d, s, l, j));
    FreeUnique(pool.table, pool.free, nb);
  }

  lemma SameLayerTaken(d: Dims, nb: nat, pool: Pool, s: nat, l: nat, j: nat, ks: seq<Vec>, vs: seq<Vec>)
    requires ValidDims(d) && |pool.table| == Entries(d) && ValidPlace(d, s, l, j) && pool.free != []
    requires |ks| == |vs| && OwnsFirst(d, pool.table, s, l, j) && pool.free[|pool.free| - 1] != -1
    requires forall p: nat :: p < |ks| ==> RowStored(d, pool, s, l, p, ks[p], vs[p])
    ensures OwnsFirst(d, Taken(d, pool, s, l, j).table, s, l, j + 1)
    ensures forall p: nat :: p < |ks| ==> RowStored(d, Taken(d, pool, s, l, j), s, l, p, ks[p], vs[p])
  {
    hide Entries, BlockIndex, KAddr, VAddr, MaxBlocks, Taken;
    var mid := Taken(d, pool, s, l, j);
    forall j': nat | j' < MaxBlocks(d)
      ensures BlockAt(d, mid.table, s, l, j') != -1 <==> j' < j + 1
      ensures j' != j ==> BlockAt(d, mid.table, s, l, j') == BlockAt(d, pool.table, s, l, j')
    {
      TakenAt(d, pool, s, l, j, s, l, j');
    }
    forall p: nat | p < |ks|
      ensures RowStored(d, mid, s, l, p, ks[p], vs[p])
    {
      assert RowStored(d, pool, s, l, p, ks[p], vs[p]);
      assert BlockAt(d, pool.table, s, l, p / d.blockSize) != -1;
    }
  }

  lemma OtherLayerTaken(d: Dims, pool: Pool, s: nat, l: nat, j: nat, s': nat, l': nat, ks: seq<Vec>, vs: seq<Vec>)
    requires ValidDims(d) && |pool.table| == Entries(d) && ValidPlace(d, s, l, j) && pool.free != []
    requires s' < d.batch && l' < d.layers && (s' != s || l' != l) && LayerStored(d, pool, s', l', ks, vs)
    ensures LayerStored(d, Taken(d, pool, s, l, j), s', l', ks, vs)
  {
    hide Entries, BlockIndex, KAddr, VAddr, Needs, MaxBlocks, Taken;
    var mid := Taken(d, pool, s, l, j);
    forall j': nat | j' < MaxBlocks(d)
      ensures BlockAt(d, mid.table, s', l', j') == BlockAt(d, pool.table, s', l', j')
    {
      TakenAt(d, pool, s, l, j, s', l', j');
    }
    forall p: nat | p < |ks|
      ensures RowStored(d, mid, s', l', p, ks[p], vs[p])
    {
      assert RowStored(d, pool, s', l', p, ks[p], vs[p]);
    }
  }

  /** A write into another block leaves a stored row stored. */
  lemma RowSurvives(d: Dims, pool: Pool, b: nat, o: nat, ks: seq<Vec>, vs: seq<Vec>, s: nat, l: nat, p: nat, k: Vec, v: Vec)
    requires ValidDims(d) && |pool.table| == Entries(d) && s < d.batch && l < d.layers
    requires |ks| == |vs| && o + |ks| <= d.blockSize && VAddr(d, b, o) + |vs| <= |pool.kv|
    requires RowStored(d, pool, s, l, p, k, v)
    requires BlockAt(d, pool.table, s, l, p / d.blockSize) != b || p % d.blockSize < o
    ensures RowStored(d, Written(d, pool, b, o, ks, vs), s, l, p, k, v)
  {
    hide Entries, BlockIndex, KAddr, VAddr, MaxBlocks, BlockAt;
    ReadWritten(d, pool, b, o, ks, vs, BlockAt(d, pool.table, s, l, p / d.blockSize), p % d.blockSize);
  }

  lemma RowAppended(d: Dims, pool: Pool, b: nat, n: nat, ks: seq<Vec>, vs: seq<Vec>, s: nat, l: nat, i: nat)
    requires ValidDims(d) && |pool.table| == Entries(d) && ValidPlace(d, s, l, n / d.blockSize)
    requires |ks| == |vs| && n % d.blockSize + |ks| <= d.blockSize && i < |ks|
    requires VAddr(d, b, n % d.blockSize) + |vs| <= |pool.kv| && BlockAt(d, pool.table, s, l, n / d.blockSize) == b
    ensures RowStored(d, Written(d, pool, b, n % d.blockSize, ks, vs), s, l, n + i, ks[i], vs[i])
  {
    ChunkRow(d, n, i);
    AddrStep(d, b, n % d.blockSize, |ks|, i);
    hide Entries, BlockIndex, KAddr, VAddr, MaxBlocks, BlockAt;
    ReadWritten(d, pool, b, n % d.blockSize, ks, vs, b, n % d.blockSize + i);
  }

  lemma AddrStep(d: Dims, b: nat, o: nat, r: nat, i: nat)
    requires i < r
    ensures KAddr(d, b, o + i) < KAddr(d, b, o) + r <= VAddr(d, b, o) + r && VAddr(d, b, o + i) < VAddr(d, b, o) + r
  {}

  lemma WriteFits(d: Dims, nb: nat, b: nat, o: nat, r: nat)
    requires b < nb && o + r <= d.blockSize
    ensures VAddr(d, b, o) + r <= nb * (2 * d.blockSize)
  {
    MulMonotone(b + 1, nb, 2 * d.blockSize);
    assert (b + 1) * (2 * d.blockSize) == b * (2 * d.blockSize) + 2 * d.blockSize;
  }

  /** The state after appending rows to one list, as the code leaves it. */
  function Appended(d: Dims, pool: Pool, s: nat, l: nat, n: nat, ks: seq<Vec>, vs: seq<Vec>): (r: Pool)
    requires ValidDims(d) && |pool.table| == Entries(d) && ValidPlace(d, s, l, n / d.blockSize)
    requires n % d.blockSize == 0 ==> pool.free != []
    requires |ks| == |vs| && n % d.blockSize + |ks| <= d.blockSize
    requires var mid := Mid(d, pool, s, l, n);
             var b := BlockAt(d, mid.table, s, l, n / d.blockSize);
             b >= 0 && VAddr(d, b, n % d.blockSize) + |vs| <= |pool.kv|
    ensures |r.table| == |pool.table|
  {
    var mid := Mid(d, pool, s, l, n);
    Written(d, mid, BlockAt(d, mid.table, s, l, n / d.blockSize), n % d.blockSize, ks, vs)
  }

  /** The block the rows go to exists, and they fit into the buffer. */
  lemma AppendFits(d: Dims, nb: nat, pool: Pool, views: seq<Lists>, s: nat, l: nat, r: nat)
    requires ValidDims(d) && Refines(d, nb, pool, views) && s < d.batch && l < d.layers && Entries(d) <= nb
    requires var n := |views[s].k[l]|; 0 < r && n % d.blockSize + r <= d.blockSize && n + r <= d.maxSeq
    ensures var n := |views[s].k[l]|;
            && ValidPlace(d, s, l, n / d.blockSize)
            && (n % d.blockSize == 0 ==> BlockAt(d, pool.table, s, l, n / d.blockSize) == -1 && pool.free != [])
            && (n % d.blockSize != 0 ==> BlockAt(d, pool.table, s, l, n / d.blockSize) != -1)
            && var mid := Mid(d, pool, s, l, n);
               var b := BlockAt(d, mid.table, s, l, n / d.blockSize);
               0 <= b < nb && VAddr(d, b, n % d.blockSize) + r <= |pool.kv|
  {
    hide Entries, BlockIndex, MaxBlocks, Taken, LayerStored, Needs, VAddr;
    var n := |views[s].k[l]|;
    AppendPlace(d, nb, pool, views, s, l, r);
    MidKeeps(d, nb, pool, views, s, l, r);
    var mid := Mid(d, pool, s, l, n);
    var j: nat := n / d.blockSize;
    assert BlockAt(d, mid.table, s, l, j) != -1;
    PlacesApart(d, nb, mid, s, l, j, s, l, j);
    WriteFits(d, nb, BlockAt(d, mid.table, s, l, j), n % d.blockSize, r);
  }

  /** Appending within a block keeps the pool a faithful representation. */
  lemma AppendKeeps(d: Dims, nb: nat, pool: Pool, views: seq<Lists>, s: nat, l: nat, ks: seq<Vec>, vs: seq<Vec>)
    requires ValidDims(d) && Refines(d, nb, pool, views) && s < d.batch && l < d.layers && Entries(d) <= nb
    requires var n := |views[s].k[l]|;
             |ks| == |vs| && 0 < |ks| && n % d.blockSize + |ks| <= d.blockSize && n + |ks| <= d.maxSeq
    requires var n := |views[s].k[l]|;
             && ValidPlace(d, s, l, n / d.blockSize) && (n % d.blockSize == 0 ==> pool.free != [])
             && var b := BlockAt(d, Mid(d, pool, s, l, n).table, s, l, n / d.blockSize);
                0 <= b < nb && VAddr(d, b, n % d.blockSize) + |vs| <= |pool.kv|
    ensures Refines(d, nb, Appended(d, pool, s, l, |views[s].k[l]|, ks, vs), views[s := Append(views[s], l, ks, vs)])
  {
    hide Entries, BlockIndex, MaxBlocks, Taken, Mid, Needs, KAddr, VAddr, RowStored, Written, BlockAt, Conserved, LayerStored;
    hide ValidPlace;
    var n := |views[s].k[l]|;
    var mid := Mid(d, pool, s, l, n);
    var b := BlockAt(d, mid.table, s, l, n / d.blockSize);
    var out := Written(d, mid, b, n % d.blockSize, ks, vs);
    var views' := views[s := Append(views[s], l, ks, vs)];
    MidKeeps(d, nb, pool, views, s, l, |ks|);
    WrittenKeepsSize(d, nb, mid, b, n % d.blockSize, ks, vs);
    AppendShape(d, views, s, l, ks, vs);
    hide ViewsShape, Sized;
    forall s': nat, l': nat | s' < d.batch && l' < d.layers
      ensures LayerStored(d, out, s', l', views'[s'].k[l'], views'[s'].v[l'])
    {
      if s' == s && l' == l {
        OwnLayerWritten(d, nb, mid, b, s, l, views[s].k[l], views[s].v[l], ks, vs);
      } else {
        OtherLayerWritten(d, nb, mid, b, s, l, n, ks, vs, s', l', views[s'].k[l'], views[s'].v[l']);
      }
    }
  }

  lemma AppendShape(d: Dims, views: seq<Lists>, s: nat, l: nat, ks: seq<Vec>, vs: seq<Vec>)
    requires ViewsShape(d, views) && s < d.batch && l < d.layers && |ks| == |vs| && |views[s].k[l]| + |ks| <= d.maxSeq
    ensures ViewsShape(d, views[s := Append(views[s], l, ks, vs)])
  {}

  lemma WrittenKeepsSize(d: Dims, nb: nat, pool: Pool, b: nat, o: nat, ks: seq<Vec>, vs: seq<Vec>)
    requires ValidDims(d) && Sized(d, nb, pool)
    requires |ks| == |vs| && o + |ks| <= d.blockSize && VAddr(d, b, o) + |vs| <= |pool.kv|
    ensures var out := Written(d, pool, b, o, ks, vs);
            Sized(d, nb, out) && out.table == pool.table && out.free == pool.free
  {
    hide Entries, Conserved;
  }

  lemma OwnLayerWritten(d: Dims, nb: nat, mid: Pool, b: nat, s: nat, l: nat, ks0: seq<Vec>, vs0: seq<Vec>,
                        ks: seq<Vec>, vs: seq<Vec>)
    requires ValidDims(d) && Sized(d, nb, mid) && s < d.batch && l < d.layers && |ks0| == |vs0|
    requires |ks| == |vs| && 0 < |ks| && |ks0| % d.blockSize + |ks| <= d.blockSize && |ks0| + |ks| <= d.maxSeq
    requires ValidPlace(d, s, l, |ks0| / d.blockSize) && BlockAt(d, mid.table, s, l, |ks0| / d.blockSize) == b < nb
    requires VAddr(d, b, |ks0| % d.blockSize) + |vs| <= |mid.kv|
    requires OwnsFirst(d, mid.table, s, l, |ks0| / d.blockSize + 1)
    requires forall p: nat :: p < |ks0| ==> RowStored(d, mid, s, l, p, ks0[p], vs0[p])
    ensures LayerStored(d, Written(d, mid, b, |ks0| % d.blockSize, ks, vs), s, l, ks0 + ks, vs0 + vs)
  {
    hide Entries, BlockIndex, MaxBlocks, Needs, KAddr, VAddr, Written, BlockAt, Conserved, RowStored;
    var n := |ks0|;
    var out := Written(d, mid, b, n % d.blockSize, ks, vs);
    WrittenKeepsSize(d, nb, mid, b, n % d.blockSize, ks, vs);
    ChunkArith(d, n, |ks|);
    forall p: nat | p < n + |ks|
      ensures RowStored(d, out, s, l, p, (ks0 + ks)[p], (vs0 + vs)[p])
    {
      if p < n {
        OtherRowKept(d, nb, mid, b, s, l, n, ks, vs, s, l, p, ks0[p], vs0[p]);
      } else {
        RowAppended(d, mid, b, n, ks, vs, s, l, p - n);
      }
    }
  }

  /** A row stored anywhere but in the written range stays stored. */
  lemma OtherRowKept(d: Dims, nb: nat, mid: Pool, b: nat, s: nat, l: nat, n: nat, ks: seq<Vec>, vs: seq<Vec>,
                     s': nat, l': nat, p: nat, k: Vec, v: Vec)
    requires ValidDims(d) && Sized(d, nb, mid) && ValidPlace(d, s, l, n / d.blockSize)
    requires |ks| == |vs| && n % d.blockSize + |ks| <= d.blockSize
    requires BlockAt(d, mid.table, s, l, n / d.blockSize) == b && VAddr(d, b, n % d.blockSize) + |vs| <= |mid.kv|
    requires s' < d.batch && l' < d.layers && RowStored(d, mid, s', l', p, k, v)
    requires s' == s && l' == l ==> p < n
    ensures RowStored(d, Written(d, mid, b, n % d.blockSize, ks, vs), s', l', p, k, v)
  {
    hide Entries, BlockIndex, MaxBlocks, Needs, KAddr, VAddr, Written, BlockAt, Conserved;
    if s' == s && l' == l && p / d.blockSize == n / d.blockSize {
      SameBlock(d, p, n);
    } else {
      PlacesApart(d, nb, mid, s, l, n / d.blockSize, s', l', p / d.blockSize);
    }
    RowSurvives(d, mid, b, n % d.blockSize, ks, vs, s', l', p, k, v);
  }

  lemma SameBlock(d: Dims, p: nat, n: nat)
    requires ValidDims(d) && p < n && p / d.blockSize == n / d.blockSize
    ensures p % d.blockSize < n % d.blockSize
  {
    assert p == (p / d.blockSize) * d.blockSize + p % d.blockSize;
    assert n == (n / d.blockSize) * d.blockSize + n % d.blockSize;
  }

  lemma OtherLayerWritten(d: Dims, nb: nat, mid: Pool, b: nat, s: nat, l: nat, n: nat, ks: seq<Vec>, vs: seq<Vec>,
                          s': nat, l': nat, ks': seq<Vec>, vs': seq<Vec>)
    requires ValidDims(d) && Sized(d, nb, mid) && ValidPlace(d, s, l, n / d.blockSize)
    requires |ks| == |vs| && n % d.blockSize + |ks| <= d.blockSize
    requires BlockAt(d, mid.table, s, l, n / d.blockSize) == b && VAddr(d, b, n % d.blockSize) + |vs| <= |mid.kv|
    requires s' < d.batch && l' < d.layers && (s' != s || l' != l) && LayerStored(d, mid, s', l', ks', vs')
    ensures LayerStored(d, Written(d, mid, b, n % d.blockSize, ks, vs), s', l', ks', vs')
  {
    hide Entries, BlockIndex, MaxBlocks, Needs, KAddr, VAddr, Written, BlockAt, Conserved, RowStored;
    WrittenKeepsSize(d, nb, mid, b, n % d.blockSize, ks, vs);
    forall p: nat | p < |ks'|
      ensures RowStored(d, Written(d, mid, b, n % d.blockSize, ks, vs), s', l', p, ks'[p], vs'[p])
    {
      OtherRowKept(d, nb, mid, b, s, l, n, ks, vs, s', l', p, ks'[p], vs'[p]);
    }
  }

  // ---------------------------------------------------------------------------------------------
  // The allocator's operations
  // ---------------------------------------------------------------------------------------------

  /** Row copies of one chunk into a block, K part and V part. */
  method CopyChunk(d: Dims, kv0: seq<Vec>, block: nat, o: nat, ks: seq<Vec>, vs: seq<Vec>) returns (kv: seq<Vec>)
    requires |ks| == |vs| && o + |ks| <= d.blockSize && VAddr(d, block, o) + |vs| <= |kv0|
    ensures kv == Written(d, Pool([], [], kv0), block, o, ks, vs).kv
  {
    var ka, va := KAddr(d, block, o), VAddr(d, block, o);
    kv := kv0[..ka] + ks + kv0[ka + |ks|..];
    kv := kv[..va] + vs + kv[va + |vs|..];
  }

  lemma RefinesSized(d: Dims, nb: nat, pool: Pool, views: seq<Lists>)
    requires ValidDims(d) && Refines(d, nb, pool, views)
    ensures |pool.table| == Entries(d) && Sized(d, nb, pool) && ViewsShape(d, views)
  {}

  /** The three fields of Appended, as the code computes them. */
  lemma AppendedForm(d: Dims, pool: Pool, s: nat, l: nat, n: nat, ks: seq<Vec>, vs: seq<Vec>)
    requires ValidDims(d) && |pool.table| == Entries(d) && ValidPlace(d, s, l, n / d.blockSize)
    requires n % d.blockSize == 0 ==> pool.free != []
    requires |ks| == |vs| && n % d.blockSize + |ks| <= d.blockSize
    requires var b := BlockAt(d, Mid(d, pool, s, l, n).table, s, l, n / d.blockSize);
             b >= 0 && VAddr(d, b, n % d.blockSize) + |vs| <= |pool.kv|
    ensures BlockIndex(d, s, l, n / d.blockSize) < |pool.table|
    ensures var fresh_, at := n % d.blockSize == 0, BlockIndex(d, s, l, n / d.blockSize);
            var b := if fresh_ then pool.free[|pool.free| - 1] else pool.table[at];
            b >= 0 && VAddr(d, b, n % d.blockSize) + |vs| <= |pool.kv| &&
            Appended(d, pool, s, l, n, ks, vs) ==
            Pool(if fresh_ then pool.table[at := b] else pool.table,
                 if fresh_ then pool.free[..|pool.free| - 1] else pool.free,
                 Written(d, Pool([], [], pool.kv), b, n % d.blockSize, ks, vs).kv)
  {
    hide Entries, MaxBlocks, KAddr, VAddr, BlockIndex;
    IndexInRange(d, s, l, n / d.blockSize);
  }

  /**
   Appends one chunk: pops a block when the chunk opens one, and copies the rows. Prefill decides by
   the table entry being unused, decode by the offset in the block being 0.
   */
  method AppendChunk(d: Dims, nb: nat, pool0: Pool, s: nat, l: nat, n: nat, ks: seq<Vec>, vs: seq<Vec>,
                     byEntry: bool, ghost views: seq<Lists>) returns (pool: Pool)
    requires ValidDims(d) && Refines(d, nb, pool0, views) && s < d.batch && l < d.layers && Entries(d) <= nb
    requires n == |views[s].k[l]| && |ks| == |vs| && 0 < |ks|
    requires n % d.blockSize + |ks| <= d.blockSize && n + |ks| <= d.maxSeq
    ensures Refines(d, nb, pool, views[s := Append(views[s], l, ks, vs)])
  {
    hide Entries, MaxBlocks, Needs, KAddr, VAddr, Refines, BlockIndex, Appended, Written, Conserved, LayerStored, Append;
    RefinesSized(d, nb, pool0, views);
    AppendFits(d, nb, pool0, views, s, l, |ks|);
    AppendKeeps(d, nb, pool0, views, s, l, ks, vs);
    IndexInRange(d, s, l, n / d.blockSize);
    var at := BlockIndex(d, s, l, n / d.blockSize);
    var table, free, kv := pool0.table, pool0.free, pool0.kv;
    var block := table[at];
    if if byEntry then block == -1 else n % d.blockSize == 0 {
      block := free[|free| - 1];
      free := free[..|free| - 1];
      table := table[at := block];
    }
    kv := CopyChunk(d, kv, block, n % d.blockSize, ks, vs);
    pool := Pool(table, free, kv);
    AppendedForm(d, pool0, s, l, n, ks, vs);
  }

  /** Scatters the rows of a whole prompt into fresh blocks of one layer. */
  method PrefillLayer(d: Dims, nb: nat, pool0: Pool, s: nat, l: nat, ks: seq<Vec>, vs: seq<Vec>,
                      ghost views: seq<Lists>) returns (pool: Pool)
    requires ValidDims(d) && Refines(d, nb, pool0, views) && s < d.batch && l < d.layers && Entries(d) <= nb
    requires |ks| == |vs| <= d.maxSeq && views[s].k[l] == [] && views[s].v[l] == []
    ensures Refines(d, nb, pool, views[s := Append(views[s], l, ks, vs)])
  {
    hide Entries, MaxBlocks, Needs, KAddr, VAddr, Written, Refines, BlockIndex;
    RefinesSized(d, nb, pool0, views);
    pool := pool0;
    ghost var cur := views;
    assert views[s := Append(views[s], l, ks[..0], vs[..0])] == views by {
      AppendNothing(views, s, l);
    }
    var token := 0;
    while token < |ks|
      invariant token <= |ks| || token < |ks| + d.blockSize
      invariant token <= |ks| ==> token % d.blockSize == 0 || token == |ks|
      invariant cur == views[s := Append(views[s], l, ks[..Upto(token, |ks|)], vs[..Upto(token, |ks|)])]
      invariant Refines(d, nb, pool, cur)
    {
      var num := |ks| - token;
      if num > d.blockSize {
        num := d.blockSize;
      }
      assert cur[s].k[l] == ks[..token] && cur[s].v[l] == vs[..token];
      pool := AppendChunk(d, nb, pool, s, l, token, ks[token..token + num], vs[token..token + num], true, cur);
      AppendTwice(views, s, l, ks, vs, token, num);
      cur := cur[s := Append(cur[s], l, ks[token..token + num], vs[token..token + num])];
      NextChunk(d, token);
      token := token + d.blockSize;
    }
    assert ks[..|ks|] == ks && vs[..|ks|] == vs;
  }

  function Upto(a: nat, n: nat): nat {
    if a <= n then a else n
  }

  lemma AppendNothing(views: seq<Lists>, s: nat, l: nat)
    requires s < |views| && l < |views[s].k| && l < |views[s].v|
    ensures views[s := Append(views[s], l, [], [])] == views
  {
    var ls := views[s];
    assert ls.k[l] + [] == ls.k[l] && ls.v[l] + [] == ls.v[l];
    assert ls.k[l := ls.k[l] + []] == ls.k && ls.v[l := ls.v[l] + []] == ls.v;
  }

  lemma NextChunk(d: Dims, token: nat)
    requires ValidDims(d) && token % d.blockSize == 0
    ensures (token + d.blockSize) % d.blockSize == 0
  {
    QuotientIs(d.blockSize, token + d.blockSize, token / d.blockSize + 1, 0);
  }

  lemma AppendTwice(views: seq<Lists>, s: nat, l: nat, ks: seq<Vec>, vs: seq<Vec>, token: nat, num: nat)
    requires s < |views| && l < |views[s].k| && l < |views[s].v| && |ks| == |vs| && token + num <= |ks|
    requires views[s].k[l] == [] && views[s].v[l] == []
    ensures var cur := views[s := Append(views[s], l, ks[..token], vs[..token])];
            cur[s := Append(cur[s], l, ks[token..token + num], vs[token..token + num])] ==
            views[s := Append(views[s], l, ks[..token + num], vs[..token + num])]
  {
    var ls, k1, v1 := views[s], ks[..token], vs[..token];
    assert k1 + ks[token..token + num] == [] + ks[..token + num];
    assert v1 + vs[token..token + num] == [] + vs[..token + num];
    assert ls.k[l := [] + k1][l := [] + ks[..token + num]] == ls.k[l := [] + ks[..token + num]];
    assert ls.v[l := [] + v1][l := [] + vs[..token + num]] == ls.v[l := [] + vs[..token + num]];
    assert [] + k1 == k1 && [] + v1 == v1;
  }

  /** The table after clearing the places of slot s before (l, j). */
  ghost predicate ClearedBefore(d: Dims, table0: seq<int>, table: seq<int>, s: nat, l: nat, j: nat)
    requires ValidDims(d) && |table0| == |table| == Entries(d)
  {
    forall s': nat, l': nat, j': nat :: ValidPlace(d, s', l', j') ==>
      BlockAt(d, table, s', l', j') ==
      if s' == s && (l' < l || (l' == l && j' < j)) then -1 else BlockAt(d, table0, s', l', j')
  }

  /** Clearing one more place. */
  lemma ClearOne(d: Dims, table0: seq<int>, table: seq<int>, s: nat, l: nat, j: nat)
    requires ValidDims(d) && |table0| == |table| == Entries(d) && ValidPlace(d, s, l, j)
    requires ClearedBefore(d, table0, table, s, l, j)
    ensures BlockIndex(d, s, l, j) < |table|
    ensures ClearedBefore(d, table0, table[BlockIndex(d, s, l, j) := -1], s, l, j + 1)
  {
    IndexInRange(d, s, l, j);
    var at := BlockIndex(d, s, l, j);
    hide Entries, MaxBlocks, BlockIndex;
    forall s': nat, l': nat, j': nat | ValidPlace(d, s', l', j')
      ensures BlockAt(d, table[at := -1], s', l', j') ==
              if s' == s && (l' < l || (l' == l && j' < j + 1)) then -1 else BlockAt(d, table0, s', l', j')
    {
      IndexInRange(d, s', l', j');
      if BlockIndex(d, s', l', j') == at {
        IndexInjective(d, s, l, j, s', l', j');
      }
      assert BlockAt(d, table, s', l', j') == table[BlockIndex(d, s', l', j')];
    }
  }

  lemma ClearNextLayer(d: Dims, table0: seq<int>, table: seq<int>, s: nat, l: nat)
    requires ValidDims(d) && |table0| == |table| == Entries(d)
    ensures ClearedBefore(d, table0, table, s, l, MaxBlocks(d)) ==> ClearedBefore(d, table0, table, s, l + 1, 0)
  {
    hide Entries, MaxBlocks, BlockAt;
  }

  /** Returns every block of the slot to the free list. */
  method ReleaseSlot(d: Dims, nb: nat, pool0: Pool, s: nat, ghost views: seq<Lists>) returns (pool: Pool)
    requires ValidDims(d) && Refines(d, nb, pool0, views) && s < d.batch
    ensures Refines(d, nb, pool, views[s := NoRows(d)])
  {
    hide Entries, MaxBlocks, Needs, KAddr, VAddr, BlockIndex, Refines, BlockAt, ClearedBefore, Conserved;
    RefinesSized(d, nb, pool0, views);
    var table, free := pool0.table, pool0.free;
    NothingCleared(d, table, s);
    var l := 0;
    while l < d.layers
      invariant 0 <= l <= d.layers && |table| == Entries(d)
      invariant Conserved(table, free, nb) && ClearedBefore(d, pool0.table, table, s, l, 0)
    {
      var j := 0;
      while j < MaxBlocks(d)
        invariant 0 <= j <= MaxBlocks(d) && |table| == Entries(d)
        invariant Conserved(table, free, nb) && ClearedBefore(d, pool0.table, table, s, l, j)
      {
        var at := BlockIndex(d, s, l, j);
        ClearOne(d, pool0.table, table, s, l, j);
        if table[at] != -1 {
          GiveConserves(table, free, nb, at);
          free := free + [table[at]];
          table := table[at := -1];
        } else {
          assert table[at := -1] == table;
        }
        j := j + 1;
      }
      ClearNextLayer(d, pool0.table, table, s, l);
      l := l + 1;
    }
    pool := Pool(table, free, pool0.kv);
    ReleasedRefines(d, nb, pool0, pool, s, views);
  }

  lemma NothingCleared(d: Dims, table: seq<int>, s: nat)
    requires ValidDims(d) && |table| == Entries(d)
    ensures ClearedBefore(d, table, table, s, 0, 0)
  {
    hide Entries, MaxBlocks, BlockAt;
  }

  lemma ReleasedRefines(d: Dims, nb: nat, pool0: Pool, pool: Pool, s: nat, views: seq<Lists>)
    requires ValidDims(d) && Refines(d, nb, pool0, views) && s < d.batch
    requires |pool.table| == Entries(d) && pool.kv == pool0.kv && Conserved(pool.table, pool.free, nb)
    requires ClearedBefore(d, pool0.table, pool.table, s, d.layers, 0)
    ensures Refines(d, nb, pool, views[s := NoRows(d)])
  {
    hide Entries, MaxBlocks, KAddr, VAddr, BlockAt, Conserved;
    var views' := views[s := NoRows(d)];
    forall s': nat, l': nat | s' < d.batch && l' < d.layers
      ensures LayerStored(d, pool, s', l', views'[s'].k[l'], views'[s'].v[l'])
    {
      if s' == s {
        NeedsNothing(d);
      } else {
        assert LayerStored(d, pool0, s', l', views[s'].k[l'], views[s'].v[l']);
        LayerUntouched(d, pool0, pool, s', l', views[s'].k[l'], views[s'].v[l']);
      }
    }
  }

  lemma NeedsNothing(d: Dims)
    requires ValidDims(d)
    ensures Needs(d, 0) == 0
  {
    QuotientIs(d.blockSize, d.blockSize - 1, 0, d.blockSize - 1);
  }

  lemma LayerUntouched(d: Dims, pool0: Pool, pool: Pool, s: nat, l: nat, ks: seq<Vec>, vs: seq<Vec>)
    requires ValidDims(d) && |pool0.table| == |pool.table| == Entries(d) && s < d.batch && l < d.layers
    requires pool.kv == pool0.kv && LayerStored(d, pool0, s, l, ks, vs)
    requires forall j: nat :: j < MaxBlocks(d) ==> BlockAt(d, pool.table, s, l, j) == BlockAt(d, pool0.table, s, l, j)
    ensures LayerStored(d, pool, s, l, ks, vs)
  {
    hide Entries, MaxBlocks, KAddr, VAddr, BlockAt, Needs;
    forall p: nat | p < |ks|
      ensures RowStored(d, pool, s, l, p, ks[p], vs[p])
    {
      assert RowStored(d, pool0, s, l, p, ks[p], vs[p]);
    }
  }

  /** The pool the program starts with: every block free, no table entry used. */
  lemma InitialRefines(d: Dims, nb: nat, kv: seq<Vec>)
    requires ValidDims(d) && |kv| == nb * (2 * d.blockSize)
    ensures Refines(d, nb, Pool(seq(Entries(d), i => -1), seq(nb, i => i), kv), seq(d.batch, s => NoRows(d)))
  {
    var pool := Pool(seq(Entries(d), i => -1), seq(nb, i => i), kv);
    hide Entries, MaxBlocks, KAddr, VAddr;
    NeedsNothing(d);
    assert Owned(pool.table) == multiset{} by {
      assert forall b :: b in pool.table ==> b == -1;
    }
    forall s: nat, l: nat, j: nat | ValidPlace(d, s, l, j)
      ensures BlockAt(d, pool.table, s, l, j) == -1
    {
      IndexInRange(d, s, l, j);
    }
  }

  /** Every table entry is the entry of some place. */
  lemma IndexOnto(d: Dims, i: nat) returns (s: nat, l: nat, j: nat)
    requires ValidDims(d) && i < Entries(d)
    ensures ValidPlace(d, s, l, j) && BlockIndex(d, s, l, j) == i
  {
    var m := MaxBlocks(d);
    var row := i / m;
    j := i % m;
    assert i == row * m + j;
    MulMonotone(d.batch * d.layers, row, m);
    assert row < d.batch * d.layers;
    s, l := row / d.layers, row % d.layers;
    assert row == s * d.layers + l;
    MulMonotone(d.batch, s, d.layers);
    IndexForm(d, s, l, j);
  }

  /** When no slot holds rows, every table entry is unused and every block is in the free list, once. */
  lemma AllReturned(d: Dims, nb: nat, pool: Pool, views: seq<Lists>)
    requires ValidDims(d) && Refines(d, nb, pool, views) && forall s :: 0 <= s < d.batch ==> views[s] == NoRows(d)
    ensures forall i :: 0 <= i < |pool.table| ==> pool.table[i] == -1
    ensures multiset(pool.free) == AllBlocks(nb)
  {
    hide Entries, MaxBlocks, KAddr, VAddr, BlockIndex, Needs;
    NeedsNothing(d);
    forall i | 0 <= i < |pool.table|
      ensures pool.table[i] == -1
    {
      var s, l, j := IndexOnto(d, i);
      assert LayerStored(d, pool, s, l, views[s].k[l], views[s].v[l]);
      assert BlockAt(d, pool.table, s, l, j) == -1;
    }
    assert forall b :: b in pool.table ==> b == -1;
    assert Owned(pool.table) == multiset{};
  }

  /** What the decode attention reads through the block table for rows 0..n. */
  function GatherK(d: Dims, pool: Pool, s: nat, l: nat, n: nat): seq<Vec>
    requires ValidDims(d) && |pool.table| == Entries(d) && s < d.batch && l < d.layers && n <= d.maxSeq
    requires forall p: nat :: p < n ==> Readable(d, pool, s, l, p)
  {
    seq(n, p requires 0 <= p < n => pool.kv[KAddr(d, Block(d, pool, s, l, p), p % d.blockSize)])
  }

  function GatherV(d: Dims, pool: Pool, s: nat, l: nat, n: nat): seq<Vec>
    requires ValidDims(d) && |pool.table| == Entries(d) && s < d.batch && l < d.layers && n <= d.maxSeq
    requires forall p: nat :: p < n ==> Readable(d, pool, s, l, p)
  {
    seq(n, p requires 0 <= p < n => pool.kv[VAddr(d, Block(d, pool, s, l, p), p % d.blockSize)])
  }

  predicate Readable(d: Dims, pool: Pool, s: nat, l: nat, p: nat)
    requires ValidDims(d) && |pool.table| == Entries(d) && s < d.batch && l < d.layers
  {
    Mapped(d, pool.table, s, l, Logical(d, p)) &&
    VAddr(d, MappedBlock(d, pool.table, s, l, Logical(d, p)), p % d.blockSize) < |pool.kv|
  }

  function Logical(d: Dims, p: nat): nat
    requires ValidDims(d)
  {
    p / d.blockSize
  }

  predicate Mapped(d: Dims, table: seq<int>, s: nat, l: nat, j: nat)
    requires ValidDims(d) && |table| == Entries(d) && s < d.batch && l < d.layers
  {
    j < MaxBlocks(d) && BlockAt(d, table, s, l, j) >= 0
  }

  function MappedBlock(d: Dims, table: seq<int>, s: nat, l: nat, j: nat): nat
    requires ValidDims(d) && |table| == Entries(d) && s < d.batch && l < d.layers && Mapped(d, table, s, l, j)
  {
    BlockAt(d, table, s, l, j)
  }

  function Block(d: Dims, pool: Pool, s: nat, l: nat, p: nat): nat
    requires ValidDims(d) && |pool.table| == Entries(d) && s < d.batch && l < d.layers && Readable(d, pool, s, l, p)
  {
    MappedBlock(d, pool.table, s, l, Logical(d, p))
  }

  /** Reading through the table gives back the list of rows, in token order. */
  lemma GatherIsList(d: Dims, nb: nat, pool: Pool, views: seq<Lists>, s: nat, l: nat)
    requires ValidDims(d) && Refines(d, nb, pool, views) && s < d.batch && l < d.layers
    ensures |pool.table| == Entries(d) && |views[s].k[l]| <= d.maxSeq
    ensures forall p: nat :: p < |views[s].k[l]| ==> Readable(d, pool, s, l, p)
    ensures GatherK(d, pool, s, l, |views[s].k[l]|) == views[s].k[l]
    ensures GatherV(d, pool, s, l, |views[s].k[l]|) == views[s].v[l]
  {
    hide Entries, MaxBlocks, KAddr, VAddr, BlockIndex, Needs, BlockAt, Conserved;
    assert LayerStored(d, pool, s, l, views[s].k[l], views[s].v[l]);
    forall p: nat | p < |views[s].k[l]|
      ensures RowStored(d, pool, s, l, p, views[s].k[l][p], views[s].v[l][p]) && Readable(d, pool, s, l, p)
    {
    }
  }
}
