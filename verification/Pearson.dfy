/** Pearson correlation over the reals. */
module Pearson {
  import opened Basics
  import opened VectorMath

  /** `statistics.fmean`. */
  function Mean(xs: seq<real>): real
    requires xs != []
  {
    Sum(xs) / |xs| as real
  }

  function Centered(xs: seq<real>): (r: seq<real>)
    requires xs != []
    ensures |r| == |xs|
  {
    seq(|xs|, i requires 0 <= i < |xs| => xs[i] - Mean(xs))
  }

  /** `_pearson`: nothing for unequal or short lists, or when one of them has no spread. */
  function PearsonOf(sqrt: real -> real, xs: seq<real>, ys: seq<real>): Option<real> {
    if |xs| != |ys| || |xs| < 2 then None
    else if Norm(sqrt, Centered(xs)) == 0.0 || Norm(sqrt, Centered(ys)) == 0.0 then None
    else Some(Cosine(sqrt, Centered(xs), Centered(ys)))
  }

  /** Where it is defined the coefficient lies in [-1, 1], and does not depend on the order of the lists. */
  lemma PearsonInRange(sqrt: real -> real, xs: seq<real>, ys: seq<real>)
    requires IsSqrt(sqrt)
    ensures PearsonOf(sqrt, xs, ys).Some? ==> -1.0 <= PearsonOf(sqrt, xs, ys).value <= 1.0
    ensures PearsonOf(sqrt, xs, ys) == PearsonOf(sqrt, ys, xs)
  {
    if PearsonOf(sqrt, xs, ys).Some? {
      CosineInRange(sqrt, Centered(xs), Centered(ys));
      CosineSymmetric(sqrt, Centered(xs), Centered(ys));
    }
  }

  lemma {:induction false} SquareSumZero(v: seq<real>)
    ensures SquareSum(v) == 0.0 <==> Constant(v, 0.0)
  {
    if v != [] {
      SquareSumZero(v[1..]);
      DotSelf(v[1..]);
      ZeroSum(v[0], v[0] * v[0], SquareSum(v[1..]));
      if Constant(v[1..], 0.0) && v[0] == 0.0 {
        assert forall i | 1 <= i < |v| :: v[i] == v[1..][i - 1];
      }
      if Constant(v, 0.0) {
        assert forall i | 0 <= i < |v[1..]| :: v[1..][i] == v[i + 1];
      }
    }
  }

  lemma ZeroSum(x: real, xx: real, rest: real)
    requires xx == x * x && rest >= 0.0
    ensures xx + rest == 0.0 <==> x == 0.0 && rest == 0.0
  {
    if x != 0.0 {
      NonZeroProduct(x, x, xx);
    }
  }

  lemma NoSpread(sqrt: real -> real, xs: seq<real>)
    requires IsSqrt(sqrt) && xs != []
    ensures Norm(sqrt, Centered(xs)) == 0.0 <==> Constant(xs, xs[0])
  {
    var c := Centered(xs);
    DotSelf(c);
    SquareSumZero(c);
    RootOfZero(sqrt(SquareSum(c)), SquareSum(c));
    if Constant(c, 0.0) {
      assert c[0] == 0.0;
      forall i | 0 <= i < |xs|
        ensures xs[i] == xs[0]
      {
        assert c[i] == xs[i] - Mean(xs);
      }
    }
    if Constant(xs, xs[0]) {
      ConstantSum(xs, xs[0]);
      MeanOfConstant(Sum(xs), |xs|, xs[0]);
      assert Mean(xs) == xs[0];
      forall i | 0 <= i < |xs|
        ensures c[i] == 0.0
      {
        assert xs[i] == xs[0];
      }
    }
  }

  lemma RootOfZero(r: real, s: real)
    requires r * r == s
    ensures r == 0.0 <==> s == 0.0
  {
    if r != 0.0 {
      NonZeroProduct(r, r, s);
    }
  }

  lemma MeanOfConstant(sum: real, n: nat, c: real)
    requires n > 0 && sum == n as real * c
    ensures sum / n as real == c
  {
  }

  /** The coefficient exists exactly for two lists of equal length, of at least two entries, neither constant. */
  lemma PearsonDefined(sqrt: real -> real, xs: seq<real>, ys: seq<real>)
    requires IsSqrt(sqrt)
    ensures PearsonOf(sqrt, xs, ys).Some? <==>
              |xs| == |ys| >= 2 && !Constant(xs, xs[0]) && !Constant(ys, ys[0])
  {
    if |xs| == |ys| >= 2 {
      NoSpread(sqrt, xs);
      NoSpread(sqrt, ys);
    }
  }

  /** A list that is not constant correlates perfectly with itself. */
  lemma PearsonSelf(sqrt: real -> real, xs: seq<real>)
    requires IsSqrt(sqrt) && |xs| >= 2 && !Constant(xs, xs[0])
    ensures PearsonOf(sqrt, xs, xs) == Some(1.0)
  {
    NoSpread(sqrt, xs);
    CosineSelf(sqrt, Centered(xs));
  }
}
