/** Sums, dot products, norms and cosines of lists of reals, for a given square root. */
module VectorMath {
  import opened Basics

  /** `sqrt` is the non-negative square root. */
  ghost predicate IsSqrt(sqrt: real -> real) {
    forall x: real | x >= 0.0 :: sqrt(x) >= 0.0 && sqrt(x) * sqrt(x) == x
  }

  function Dot(a: seq<real>, b: seq<real>): real
    requires |a| == |b|
  {
    if a == [] then 0.0 else a[0] * b[0] + Dot(a[1..], b[1..])
  }

  function Norm(sqrt: real -> real, v: seq<real>): real {
    sqrt(SquareSum(v))
  }

  /** `_cosine` of two vectors of equal dimension and non-zero norm. */
  function Cosine(sqrt: real -> real, a: seq<real>, b: seq<real>): real
    requires |a| == |b| && Norm(sqrt, a) != 0.0 && Norm(sqrt, b) != 0.0
  {
    NonZeroProduct(Norm(sqrt, a), Norm(sqrt, b), Product(Norm(sqrt, a), Norm(sqrt, b)));
    Over(Dot(a, b), Product(Norm(sqrt, a), Norm(sqrt, b)))
  }

  function Product(a: real, b: real): real {
    a * b
  }

  function Over(d: real, p: real): real
    requires p != 0.0
  {
    d / p
  }

  lemma NonZeroProduct(a: real, b: real, product: real)
    requires a != 0.0 && b != 0.0 && product == a * b
    ensures product != 0.0
  {
    assert (1.0 / a) * product == b;
  }

  lemma {:induction false} DotSymmetric(a: seq<real>, b: seq<real>)
    requires |a| == |b|
    ensures Dot(a, b) == Dot(b, a)
  {
    if a != [] {
      DotSymmetric(a[1..], b[1..]);
    }
  }

  lemma {:induction false} DotSelf(v: seq<real>)
    ensures Dot(v, v) == SquareSum(v) >= 0.0
  {
    if v != [] {
      DotSelf(v[1..]);
    }
  }

  lemma CosineSymmetric(sqrt: real -> real, a: seq<real>, b: seq<real>)
    requires |a| == |b| && Norm(sqrt, a) != 0.0 && Norm(sqrt, b) != 0.0
    ensures Cosine(sqrt, a, b) == Cosine(sqrt, b, a)
  {
    DotSymmetric(a, b);
    assert Product(Norm(sqrt, a), Norm(sqrt, b)) == Product(Norm(sqrt, b), Norm(sqrt, a));
  }

  lemma CosineSelf(sqrt: real -> real, v: seq<real>)
    requires IsSqrt(sqrt) && Norm(sqrt, v) != 0.0
    ensures Cosine(sqrt, v, v) == 1.0
  {
    DotSelf(v);
    NonZeroProduct(Norm(sqrt, v), Norm(sqrt, v), SquareSum(v));
    SelfQuotient(Product(Norm(sqrt, v), Norm(sqrt, v)), Dot(v, v));
  }

  lemma SelfQuotient(p: real, d: real)
    requires p == d != 0.0
    ensures Over(d, p) == 1.0
  {
  }

  function Sum(s: seq<real>): real {
    if s == [] then 0.0 else s[0] + Sum(s[1..])
  }

  ghost predicate Constant(s: seq<real>, c: real) {
    forall i | 0 <= i < |s| :: s[i] == c
  }

  lemma {:induction false} ConstantSum(s: seq<real>, c: real)
    requires Constant(s, c)
    ensures Sum(s) == |s| as real * c
  {
    if s != [] {
      ConstantSum(s[1..], c);
      assert |s| as real * c == (|s| - 1) as real * c + c;
    }
  }

  function SquareSum(v: seq<real>): real {
    if v == [] then 0.0 else v[0] * v[0] + SquareSum(v[1..])
  }

  // ---------------------------------------------------------------- Cauchy-Schwarz

  lemma GeometricMean(u: real, v: real, w: real)
    requires u >= 0.0 && v >= 0.0 && w * w <= u * v
    ensures 2.0 * w <= u + v
  {
    var sum, gap := u + v, u - v;
    assert sum * sum - 4.0 * (u * v) == gap * gap >= 0.0;
    LargerSquare(sum, 2.0 * w, sum * sum, (2.0 * w) * (2.0 * w));
  }

  lemma LargerSquare(s: real, t: real, ss: real, tt: real)
    requires s >= 0.0 && ss == s * s && tt == t * t && tt <= ss
    ensures t <= s && -s <= t
  {
    assert (s - t) * (s + t) == ss - tt;
    if t > 0.0 {
      NonNegativeFactor(s - t, s + t, ss - tt);
    } else if t < 0.0 {
      NonNegativeFactor(s + t, s - t, ss - tt);
    }
  }

  lemma InductionStep(p: real, a: real, b: real, x: real, y: real)
    requires a >= 0.0 && b >= 0.0 && p * p <= a * b
    ensures (p + x * y) * (p + x * y) <= (a + x * x) * (b + y * y)
  {
    var u, v, w := a * (y * y), b * (x * x), p * (x * y);
    Square(y);
    Square(x);
    Square(x * y);
    ProductOfSquares(a, b, x, y, u, v);
    assert w * w == (p * p) * ((x * y) * (x * y));
    assert (p * p) * ((x * y) * (x * y)) <= (a * b) * ((x * y) * (x * y));
    GeometricMean(u, v, w);
    assert (a + x * x) * (b + y * y) == a * b + u + v + (x * y) * (x * y);
    assert (p + x * y) * (p + x * y) == p * p + 2.0 * w + (x * y) * (x * y);
  }

  lemma Square(x: real)
    ensures x * x >= 0.0
  {
  }

  lemma ProductOfSquares(a: real, b: real, x: real, y: real, u: real, v: real)
    requires a >= 0.0 && b >= 0.0 && u == a * (y * y) && v == b * (x * x)
    ensures u >= 0.0 && v >= 0.0 && u * v == (a * b) * ((x * y) * (x * y))
  {
    Square(x);
    Square(y);
  }

  lemma CauchyStep(p: real, a: real, b: real, x: real, y: real, p': real, a': real, b': real)
    requires a >= 0.0 && b >= 0.0 && p * p <= a * b
    requires p' == x * y + p && a' == x * x + a && b' == y * y + b
    ensures p' * p' <= a' * b'
  {
    InductionStep(p, a, b, x, y);
  }

  lemma {:induction false} CauchySchwarz(a: seq<real>, b: seq<real>)
    requires |a| == |b|
    ensures Dot(a, b) * Dot(a, b) <= SquareSum(a) * SquareSum(b)
  {
    if a != [] {
      CauchySchwarz(a[1..], b[1..]);
      DotSelf(a[1..]);
      DotSelf(b[1..]);
      var p, s, t := Dot(a[1..], b[1..]), SquareSum(a[1..]), SquareSum(b[1..]);
      CauchyStep(p, s, t, a[0], b[0], Dot(a, b), SquareSum(a), SquareSum(b));
    }
  }

  lemma BoundedQuotient(d: real, p: real)
    requires p > 0.0 && -p <= d <= p
    ensures -1.0 <= Over(d, p) <= 1.0
  {
    var q := Over(d, p);
    assert q * p == d;
    NonNegativeFactor(1.0 - q, p, p - d);
    NonNegativeFactor(1.0 + q, p, p + d);
  }

  lemma ProductOfNorms(na: real, nb: real, sa: real, sb: real, p: real)
    requires na >= 0.0 && nb >= 0.0 && na * na == sa && nb * nb == sb && p == na * nb
    ensures p >= 0.0 && p * p == sa * sb
  {
  }

  /** A cosine never leaves [-1, 1]. */
  lemma CosineInRange(sqrt: real -> real, a: seq<real>, b: seq<real>)
    requires IsSqrt(sqrt) && |a| == |b| && Norm(sqrt, a) != 0.0 && Norm(sqrt, b) != 0.0
    ensures -1.0 <= Cosine(sqrt, a, b) <= 1.0
  {
    var p := Product(Norm(sqrt, a), Norm(sqrt, b));
    DotSelf(a);
    DotSelf(b);
    CauchySchwarz(a, b);
    ProductOfNorms(Norm(sqrt, a), Norm(sqrt, b), SquareSum(a), SquareSum(b), p);
    NonZeroProduct(Norm(sqrt, a), Norm(sqrt, b), p);
    LargerSquare(p, Dot(a, b), p * p, Dot(a, b) * Dot(a, b));
    BoundedQuotient(Dot(a, b), p);
  }
}
