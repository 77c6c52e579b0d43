/** Products of vectors and matrices as a textbook has them. */
module Textbook {
  import opened RealSum
  import opened Buffers

  function Times(a: seq<real>, b: seq<real>): nat -> real {
    (k: nat) => At(a, k) * At(b, k)
  }

  function Dot(a: seq<real>, b: seq<real>): real
    requires |a| == |b|
  {
    Sum(|a|, Times(a, b))
  }

  lemma DotIs(a: seq<real>, b: seq<real>)
    requires |a| == |b|
    ensures Dot(a, b) == Sum(|a|, Times(a, b))
  {}

  /** A matrix by rows times a vector. */
  function Product(rows: seq<seq<real>>, x: seq<real>): (y: seq<real>)
    requires Even(rows, |x|)
    ensures |y| == |rows|
  {
    seq(|rows|, y requires 0 <= y < |rows| => Dot(rows[y], x))
  }
}
