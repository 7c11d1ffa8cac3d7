/** Option and Result, and the few sequence facts the other modules share. */
module Basics {

  datatype Option<+T> = None | Some(value: T)

  /** The outcome of an operation of the source that may raise. */
  datatype Result<+T, +E> = Ok(value: T) | Err(error: E)

  function Max(a: int, b: int): int {
    if a < b then b else a
  }

  function Abs(a: int): int {
    if a < 0 then -a else a
  }

  /** `statistics.median` of three integers. */
  function Median3(a: int, b: int, c: int): (m: int)
    ensures m == a || m == b || m == c
    ensures (m <= a && m <= b) || (m <= a && m <= c) || (m <= b && m <= c)
    ensures (m >= a && m >= b) || (m >= a && m >= c) || (m >= b && m >= c)
  {
    if a <= b then
      (if b <= c then b else if a <= c then c else a)
    else
      (if a <= c then a else if b <= c then c else b)
  }

  /** `statistics.median` of three reals. */
  function MedianReal3(a: real, b: real, c: real): real {
    if a <= b then
      (if b <= c then b else if a <= c then c else a)
    else
      (if a <= c then a else if b <= c then c else b)
  }

  /** `range(n)`. */
  function Indices(n: nat): seq<int> {
    seq(n, i => i)
  }

  lemma NonNegativeFactor(q: real, b: real, product: real)
    requires b > 0.0 && product == q * b && product >= 0.0
    ensures q >= 0.0
  {
  }

  lemma {:induction false} SubsetSize<T>(a: set<T>, b: set<T>)
    requires a <= b
    ensures |a| <= |b|
  {
    if a != {} {
      var x :| x in a;
      SubsetSize(a - {x}, b - {x});
    }
  }

  function Concat<T>(parts: seq<seq<T>>): seq<T> {
    if parts == [] then [] else parts[0] + Concat(parts[1..])
  }

  lemma {:induction false} ConcatAppend<T>(parts: seq<seq<T>>, last: seq<T>)
    ensures Concat(parts + [last]) == Concat(parts) + last
  {
    if parts == [] {
      assert parts + [last] == [last];
      assert [last][1..] == [];
    } else {
      assert (parts + [last])[1..] == parts[1..] + [last];
      ConcatAppend(parts[1..], last);
      assert parts[0] + (Concat(parts[1..]) + last) == (parts[0] + Concat(parts[1..])) + last;
    }
  }
}
