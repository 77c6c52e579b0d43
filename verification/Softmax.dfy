/** Softmax over the reals in the two ways the code computes it, and its parts. */
module Softmax {
  import opened RealSum

  /** The exponential, of which only positivity matters. */
  ghost predicate Positive(exp: real -> real) {
    forall x :: exp(x) > 0.0
  }

  function Largest(s: seq<real>): real
    requires s != []
  {
    if |s| == 1 then s[0]
    else
      var m := Largest(s[..|s| - 1]);
      if s[|s| - 1] > m then s[|s| - 1] else m
  }

  /** It is one of them, and none is larger. */
  lemma {:induction false} LargestIsLargest(s: seq<real>)
    requires s != []
    ensures Largest(s) in s && forall i :: 0 <= i < |s| ==> s[i] <= Largest(s)
  {
    if |s| > 1 {
      LargestIsLargest(s[..|s| - 1]);
      assert s == s[..|s| - 1] + [s[|s| - 1]];
    }
  }

  function Shifted(exp: real -> real, s: seq<real>, m: real): nat -> real {
    (i: nat) => exp(At(s, i) - m)
  }

  function Weights(exp: real -> real, s: seq<real>): (r: seq<real>)
    ensures |r| == |s|
  {
    if s == [] then [] else Shares(exp, s, Largest(s), Sum(|s|, Shifted(exp, s, Largest(s))))
  }

  function Shares(exp: real -> real, s: seq<real>, m: real, den: real): (r: seq<real>)
    ensures |r| == |s|
  {
    seq(|s|, i requires 0 <= i < |s| => Share(exp(s[i] - m), den))
  }

  function Share(x: real, den: real): real {
    if den == 0.0 then 0.0 else x / den
  }

  /** The weights are positive, in the ratio of the exponentials, and add up to one. */
  lemma WeightsMeaning(exp: real -> real, s: seq<real>)
    requires s != [] && Positive(exp)
    ensures forall i: nat :: i < |s| ==> Weights(exp, s)[i] > 0.0
    ensures forall i: nat, j: nat :: i < |s| && j < |s| ==>
              Weights(exp, s)[i] * exp(s[j] - Largest(s)) == Weights(exp, s)[j] * exp(s[i] - Largest(s))
    ensures Sum(|s|, (i: nat) => At(Weights(exp, s), i)) == 1.0
  {
    hide *;
    forall i: nat | i < |s|
      ensures Weights(exp, s)[i] > 0.0
    {
      RatioIs(exp, s, i, i);
    }
    forall i: nat, j: nat | i < |s| && j < |s|
      ensures Weights(exp, s)[i] * exp(s[j] - Largest(s)) == Weights(exp, s)[j] * exp(s[i] - Largest(s))
    {
      RatioIs(exp, s, i, j);
    }
    WeightsSum(exp, s, (i: nat) => At(Weights(exp, s), i));
  }

  /** w is the part of den that x is. */
  predicate IsPart(w: real, x: real, den: real) {
    den > 0.0 && w > 0.0 && den * w == x
  }

  lemma WeightIs(exp: real -> real, s: seq<real>, i: nat)
    requires i < |s| && Positive(exp)
    ensures IsPart(Weights(exp, s)[i], exp(s[i] - Largest(s)), Sum(|s|, Shifted(exp, s, Largest(s))))
  {
    hide *;
    DenPositive(exp, s);
    WeightForm(exp, s, i);
    ExpPositive(exp, s[i] - Largest(s));
    ShareIsPart(exp(s[i] - Largest(s)), Sum(|s|, Shifted(exp, s, Largest(s))));
  }

  lemma ExpPositive(exp: real -> real, x: real)
    requires Positive(exp)
    ensures exp(x) > 0.0
  {}

  lemma ShareIsPart(x: real, den: real)
    requires x > 0.0 && den > 0.0
    ensures IsPart(Share(x, den), x, den)
  {}

  lemma RatioIs(exp: real -> real, s: seq<real>, i: nat, j: nat)
    requires i < |s| && j < |s| && Positive(exp)
    ensures Weights(exp, s)[i] > 0.0
    ensures Weights(exp, s)[i] * exp(s[j] - Largest(s)) == Weights(exp, s)[j] * exp(s[i] - Largest(s))
  {
    hide *;
    WeightIs(exp, s, i);
    WeightIs(exp, s, j);
    CrossParts(Weights(exp, s)[i], Weights(exp, s)[j], Sum(|s|, Shifted(exp, s, Largest(s))),
               exp(s[i] - Largest(s)), exp(s[j] - Largest(s)));
  }

  lemma CrossParts(a: real, b: real, d: real, x: real, y: real)
    requires IsPart(a, x, d) && IsPart(b, y, d)
    ensures a > 0.0 && a * y == b * x
  {
    assert a * (d * b) == b * (d * a);
  }

  lemma WeightsSum(exp: real -> real, s: seq<real>, a: nat -> real)
    requires s != [] && Positive(exp) && forall i: nat :: a(i) == At(Weights(exp, s), i)
    ensures Sum(|s|, a) == 1.0
  {
    hide *;
    var f := Shifted(exp, s, Largest(s));
    DenPositive(exp, s);
    forall i: nat | i < |s|
      ensures IsPart(a(i), f(i), Sum(|s|, f))
    {
      WeightIs(exp, s, i);
      AtIs(Weights(exp, s), i);
      ShiftedIs(exp, s, i);
    }
    PartsAdd(|s|, f, a);
  }

  lemma AtIs(s: seq<real>, i: nat)
    requires i < |s|
    ensures At(s, i) == s[i]
  {}

  lemma ShiftedIs(exp: real -> real, s: seq<real>, i: nat)
    requires i < |s|
    ensures Shifted(exp, s, Largest(s))(i) == exp(s[i] - Largest(s))
  {
    hide Largest;
  }

  lemma PartsAdd(n: nat, f: nat -> real, a: nat -> real)
    requires Sum(n, f) > 0.0 && forall i: nat :: i < n ==> IsPart(a(i), f(i), Sum(n, f))
    ensures Sum(n, a) == 1.0
  {
    hide Sum;
    SumScale(n, Sum(n, f), a, f);
    One(Sum(n, a), Sum(n, f), Sum(n, f));
  }

  lemma DenPositive(exp: real -> real, s: seq<real>)
    requires s != [] && Positive(exp)
    ensures Sum(|s|, Shifted(exp, s, Largest(s))) > 0.0
  {
    hide Sum;
    SumPositive(|s|, Shifted(exp, s, Largest(s)));
  }

  lemma WeightForm(exp: real -> real, s: seq<real>, i: nat)
    requires i < |s|
    ensures Weights(exp, s)[i] == Share(exp(s[i] - Largest(s)), Sum(|s|, Shifted(exp, s, Largest(s))))
  {
    hide Sum, Largest, Share, Shifted;
    assert Weights(exp, s) == Shares(exp, s, Largest(s), Sum(|s|, Shifted(exp, s, Largest(s)))) by { hide Shares; }
  }

  lemma One(a: real, d: real, p: real)
    requires d > 0.0 && p == d * a && p == d
    ensures a == 1.0
  {
    assert d * (a - 1.0) == 0.0;
  }

  method LargestOf(s: seq<real>) returns (m: real)
    requires s != []
    ensures m == Largest(s)
  {
    m := s[0];
    var i := 1;
    while i < |s|
      invariant 1 <= i <= |s| && m == Largest(s[..i])
    {
      assert s[..i + 1][..i] == s[..i];
      if s[i] > m {
        m := s[i];
      }
      i := i + 1;
    }
    assert s[..i] == s;
  }

  method Exponentials(exp: real -> real, s: seq<real>, m: real) returns (e: seq<real>, den: real)
    ensures |e| == |s| && den == Sum(|s|, Shifted(exp, s, m))
    ensures forall i :: 0 <= i < |s| ==> e[i] == exp(s[i] - m)
  {
    e, den := [], 0.0;
    var i := 0;
    while i < |s|
      invariant 0 <= i <= |s| && |e| == i && den == Sum(i, Shifted(exp, s, m))
      invariant forall j :: 0 <= j < i ==> e[j] == exp(s[j] - m)
    {
      e := e + [exp(s[i] - m)];
      den := den + e[i];
      i := i + 1;
    }
  }

  /** The softmax inside the unabsorbed attention: divide by a positive denominator. */
  method SoftmaxByDivision(exp: real -> real, s: seq<real>) returns (r: seq<real>)
    requires Positive(exp)
    ensures r == Weights(exp, s)
  {
    hide Sum, Largest;
    if s == [] {
      return s;
    }
    var m := LargestOf(s);
    var den;
    r, den := Exponentials(exp, s, m);
    SumPositive(|s|, Shifted(exp, s, m));
    var i := 0;
    while i < |s| && den > 0.0
      invariant 0 <= i <= |s| && |r| == |s|
      invariant forall j :: 0 <= j < |s| ==> r[j] == if j < i then exp(s[j] - m) / den else exp(s[j] - m)
    {
      r := r[i := r[i] / den];
      i := i + 1;
    }
  }

  /** The shared softmax: multiply by the reciprocal of the sum. */
  method SoftmaxByReciprocal(exp: real -> real, s: seq<real>) returns (r: seq<real>)
    requires Positive(exp)
    ensures r == Weights(exp, s)
  {
    hide Sum, Largest;
    if s == [] {
      return s;
    }
    var m := LargestOf(s);
    var sum;
    r, sum := Exponentials(exp, s, m);
    SumPositive(|s|, Shifted(exp, s, m));
    var inv := if sum == 0.0 then 0.0 else 1.0 / sum;
    var i := 0;
    while i < |s|
      invariant 0 <= i <= |s| && |r| == |s|
      invariant forall j :: 0 <= j < |s| ==> r[j] == if j < i then exp(s[j] - m) / sum else exp(s[j] - m)
    {
      Reciprocal(r[i], sum);
      r := r[i := r[i] * inv];
      i := i + 1;
    }
  }

  lemma Reciprocal(x: real, d: real)
    requires d > 0.0
    ensures x * (1.0 / d) == x / d
  {}
}
