/** Flat buffers: rows of one length laid out one after the other. */
module Buffers {
  import opened Arith

  function Flat<T>(rows: seq<seq<T>>): seq<T> {
    if rows == [] then [] else rows[0] + Flat(rows[1..])
  }

  predicate Even<T>(rows: seq<seq<T>>, n: nat) {
    forall y :: 0 <= y < |rows| ==> |rows[y]| == n
  }

  /** Element x of row y stands at y * n + x. */
  lemma {:induction false} FlatAt<T>(rows: seq<seq<T>>, n: nat, y: nat, x: nat)
    requires Even(rows, n) && y < |rows| && x < n
    ensures |Flat(rows)| == |rows| * n && y * n + x < |Flat(rows)| && Flat(rows)[y * n + x] == rows[y][x]
    decreases |rows|
  {
    FlatSize(rows, n);
    DigitsBelow(n, y, x, |rows|);
    if y > 0 {
      FlatAt(rows[1..], n, y - 1, x);
      assert (y - 1) * n + x == y * n + x - n;
    }
  }

  /** Blocks of rows of one length, laid out one after the other, are rows of that length. */
  lemma {:induction false} FlatEven<T>(blocks: seq<seq<seq<T>>>, n: nat)
    requires forall h :: 0 <= h < |blocks| ==> Even(blocks[h], n)
    ensures Even(Flat(blocks), n)
    decreases |blocks|
  {
    if blocks != [] {
      FlatEven(blocks[1..], n);
    }
  }

  lemma {:induction false} FlatSize<T>(rows: seq<seq<T>>, n: nat)
    requires Even(rows, n)
    ensures |Flat(rows)| == |rows| * n
    decreases |rows|
  {
    if rows != [] {
      FlatSize(rows[1..], n);
      assert |rows| * n == n + (|rows| - 1) * n;
    }
  }
}
