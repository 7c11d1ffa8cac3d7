/** Rank correlation with average ranks for ties. */
module Spearman {
  import opened Basics
  import opened Sorting

  // ---------------------------------------------------------------- average ranks

  function CountLess(vals: seq<real>, x: real): nat {
    if vals == [] then 0 else (if vals[0] < x then 1 else 0) + CountLess(vals[1..], x)
  }

  function CountEqual(vals: seq<real>, x: real): nat {
    if vals == [] then 0 else (if vals[0] == x then 1 else 0) + CountEqual(vals[1..], x)
  }

  /** The mean of the positions that the values equal to `x` take in sorted order, counted from 1. */
  function AverageRank(vals: seq<real>, x: real): real {
    CountLess(vals, x) as real + (CountEqual(vals, x) as real + 1.0) / 2.0
  }

  function Sign(x: real, y: real): int {
    if x < y then 1 else if x > y then -1 else 0
  }

  /** How many more of `vals` lie below `y` than above it. */
  function Balance(vals: seq<real>, y: real): int {
    if vals == [] then 0 else Sign(vals[0], y) + Balance(vals[1..], y)
  }

  lemma {:induction false} BalanceCounts(vals: seq<real>, x: real)
    ensures Balance(vals, x) == 2 * CountLess(vals, x) + CountEqual(vals, x) - |vals|
  {
    if vals != [] {
      BalanceCounts(vals[1..], x);
    }
  }

  lemma RankIsBalance(vals: seq<real>, x: real)
    ensures AverageRank(vals, x) == (|vals| + 1 + Balance(vals, x)) as real / 2.0
  {
    BalanceCounts(vals, x);
  }

  lemma {:induction false} BalanceMonotone(vals: seq<real>, x: real, y: real)
    requires x < y
    ensures Balance(vals, x) <= Balance(vals, y)
    ensures x in vals || y in vals ==> Balance(vals, x) < Balance(vals, y)
  {
    if vals != [] {
      BalanceMonotone(vals[1..], x, y);
      assert forall z :: z in vals <==> z == vals[0] || z in vals[1..];
    }
  }

  /** Ranks order the entries exactly as their values do; in particular ties share one rank. */
  lemma RanksFollowValues(vals: seq<real>, i: nat, j: nat)
    requires i < |vals| && j < |vals|
    ensures vals[i] < vals[j] <==> AverageRank(vals, vals[i]) < AverageRank(vals, vals[j])
    ensures vals[i] == vals[j] <==> AverageRank(vals, vals[i]) == AverageRank(vals, vals[j])
  {
    RankIsBalance(vals, vals[i]);
    RankIsBalance(vals, vals[j]);
    if vals[i] < vals[j] {
      BalanceMonotone(vals, vals[i], vals[j]);
    } else if vals[j] < vals[i] {
      BalanceMonotone(vals, vals[j], vals[i]);
    }
  }

  // ---------------------------------------------------------------- the ranking loop

  function At(vals: seq<real>, i: int): real {
    if 0 <= i < |vals| then vals[i] else 0.0
  }

  function ByValue(vals: seq<real>): (int, int) -> bool {
    (i, j) => At(vals, i) <= At(vals, j)
  }

  /** `sorted(range(n), key=lambda i: vals[i])`. */
  function Order(vals: seq<real>): (order: seq<int>)
    ensures |order| == |vals|
    ensures forall p | 0 <= p < |order| :: 0 <= order[p] < |vals|
  {
    var order := Sort(ByValue(vals), Indices(|vals|));
    SortMembers(ByValue(vals), Indices(|vals|));
    IndicesOnly(order, |vals|);
    order
  }

  lemma IndicesOnly(order: seq<int>, n: nat)
    requires multiset(order) == multiset(Indices(n))
    ensures forall p | 0 <= p < |order| :: 0 <= order[p] < n
  {
    forall p | 0 <= p < |order|
      ensures 0 <= order[p] < n
    {
      SameMembers(order, Indices(n), order[p]);
    }
  }

  /** The order lists every index exactly once, by rising value. */
  lemma OrderSorts(vals: seq<real>)
    ensures Distinct(Order(vals))
    ensures forall p, q | 0 <= p < q < |vals| :: vals[Order(vals)[p]] <= vals[Order(vals)[q]]
    ensures forall k | 0 <= k < |vals| :: k in Order(vals)
  {
    var order := Order(vals);
    SortOrdered(ByValue(vals), Indices(|vals|));
    SortMembers(ByValue(vals), Indices(|vals|));
    DistinctSorted(Indices(|vals|), order);
    forall p, q | 0 <= p < q < |vals|
      ensures vals[order[p]] <= vals[order[q]]
    {
      assert ByValue(vals)(order[p], order[q]);
    }
    forall k | 0 <= k < |vals|
      ensures k in order
    {
      assert Indices(|vals|)[k] == k;
      SameMembers(order, Indices(|vals|), k);
    }
  }

  /** The balance of the values at the listed indices. */
  function BalanceOver(vals: seq<real>, order: seq<int>, x: real): int {
    if order == [] then 0 else Sign(At(vals, order[0]), x) + BalanceOver(vals, order[1..], x)
  }

  lemma {:induction false} BalanceOfInsert(vals: seq<real>, i: int, order: seq<int>, x: real)
    ensures BalanceOver(vals, Insert(ByValue(vals), i, order), x)
            == Sign(At(vals, i), x) + BalanceOver(vals, order, x)
  {
    if order == [] || ByValue(vals)(i, order[0]) {
      assert ([i] + order)[1..] == order;
    } else {
      BalanceOfInsert(vals, i, order[1..], x);
    }
  }

  lemma {:induction false} BalanceOfSorted(vals: seq<real>, indices: seq<int>, x: real)
    ensures BalanceOver(vals, Sort(ByValue(vals), indices), x) == BalanceOver(vals, indices, x)
  {
    if indices != [] {
      BalanceOfSorted(vals, indices[1..], x);
      BalanceOfInsert(vals, indices[0], Sort(ByValue(vals), indices[1..]), x);
    }
  }

  lemma {:induction false} BalanceOfIndices(vals: seq<real>, i: nat, x: real)
    requires i <= |vals|
    ensures BalanceOver(vals, Indices(|vals|)[i..], x) == Balance(vals[i..], x)
    decreases |vals| - i
  {
    if i < |vals| {
      BalanceOfIndices(vals, i + 1, x);
      assert Indices(|vals|)[i..][1..] == Indices(|vals|)[i + 1..] && vals[i..][1..] == vals[i + 1..];
    }
  }

  lemma BalanceOfOrder(vals: seq<real>, x: real)
    ensures BalanceOver(vals, Order(vals), x) == Balance(vals, x)
  {
    BalanceOfSorted(vals, Indices(|vals|), x);
    BalanceOfIndices(vals, 0, x);
    assert Indices(|vals|)[0..] == Indices(|vals|) && vals[0..] == vals;
  }

  /** `below` entries smaller than `x`, then `ties` equal ones, then larger ones. */
  ghost predicate BlockAt(vals: seq<real>, order: seq<int>, x: real, below: nat, ties: nat) {
    && below + ties <= |order|
    && forall p | 0 <= p < |order| ::
         if p < below then At(vals, order[p]) < x
         else if p < below + ties then At(vals, order[p]) == x
         else At(vals, order[p]) > x
  }

  lemma {:induction false} BalanceOfBlock(vals: seq<real>, order: seq<int>, x: real, below: nat, ties: nat)
    requires BlockAt(vals, order, x, below, ties)
    ensures BalanceOver(vals, order, x) == 2 * below + ties - |order|
    decreases |order|
  {
    if order != [] {
      if below > 0 {
        BalanceOfBlock(vals, order[1..], x, below - 1, ties);
      } else if ties > 0 {
        BalanceOfBlock(vals, order[1..], x, 0, ties - 1);
      } else {
        BalanceOfBlock(vals, order[1..], x, 0, 0);
      }
    }
  }

  /** The members of one block all get the average of its first and last position. */
  lemma BlockRank(vals: seq<real>, x: real, i: nat, j: nat)
    requires i <= j < |vals|
    requires BlockAt(vals, Order(vals), x, i, j + 1 - i)
    ensures AverageRank(vals, x) == (i + j) as real / 2.0 + 1.0
  {
    BalanceOfBlock(vals, Order(vals), x, i, j + 1 - i);
    BalanceOfOrder(vals, x);
    RankIsBalance(vals, x);
  }

  ghost predicate Ranked(vals: seq<real>, r: seq<real>, order: seq<int>, upTo: nat) {
    && |r| == |vals| && upTo <= |order|
    && (forall p | 0 <= p < |order| :: 0 <= order[p] < |vals|)
    && forall p | 0 <= p < upTo :: r[order[p]] == AverageRank(vals, vals[order[p]])
  }

  lemma RankedStep(vals: seq<real>, r: seq<real>, order: seq<int>, k: nat, avg: real)
    requires Ranked(vals, r, order, k) && k < |order|
    requires forall p | 0 <= p < k :: order[p] != order[k]
    requires avg == AverageRank(vals, vals[order[k]])
    ensures Ranked(vals, r[order[k] := avg], order, k + 1)
  {
  }

  lemma AllRanked(vals: seq<real>, r: seq<real>)
    requires Ranked(vals, r, Order(vals), |Order(vals)|)
    ensures forall k | 0 <= k < |vals| :: r[k] == AverageRank(vals, vals[k])
  {
    OrderSorts(vals);
    forall k | 0 <= k < |vals|
      ensures r[k] == AverageRank(vals, vals[k])
    {
      var order := Order(vals);
      assert k in order;
      var p :| 0 <= p < |order| && order[p] == k;
    }
  }

  /** The nested loops that hand out the ranks block by block. */
  method Ranks(vals: seq<real>) returns (r: array<real>)
    ensures fresh(r) && r.Length == |vals|
    ensures forall k | 0 <= k < |vals| :: r[k] == AverageRank(vals, vals[k])
  {
    var order := Order(vals);
    OrderSorts(vals);
    r := new real[|vals|](_ => 0.0);
    var i := 0;
    while i < |order|
      invariant 0 <= i <= |order|
      invariant 0 < i < |order| ==> vals[order[i - 1]] < vals[order[i]]
      invariant Ranked(vals, r[..], order, i)
    {
      var j := i;
      while j + 1 < |order| && vals[order[j + 1]] == vals[order[i]]
        invariant i <= j < |order|
        invariant forall p | i <= p <= j :: vals[order[p]] == vals[order[i]]
      {
        j := j + 1;
      }
      var avg := (i + j) as real / 2.0 + 1.0;
      BlockRank(vals, vals[order[i]], i, j);
      for k := i to j + 1
        invariant Ranked(vals, r[..], order, k)
      {
        RankedStep(vals, r[..], order, k, avg);
        r[order[k]] := avg;
      }
      i := j + 1;
    }
    AllRanked(vals, r[..]);
  }

  // ---------------------------------------------------------------- rank sums

  function RankSum(vals: seq<real>, xs: seq<real>): real {
    if xs == [] then 0.0 else AverageRank(vals, xs[0]) + RankSum(vals, xs[1..])
  }

  function BalanceSum(vals: seq<real>, xs: seq<real>): int {
    if xs == [] then 0 else Balance(vals, xs[0]) + BalanceSum(vals, xs[1..])
  }

  lemma {:induction false} BalanceSumStep(a: real, vals: seq<real>, xs: seq<real>)
    ensures BalanceSum([a] + vals, xs) == BalanceSum(vals, xs) - Balance(xs, a)
  {
    if xs != [] {
      BalanceSumStep(a, vals, xs[1..]);
      assert ([a] + vals)[1..] == vals;
    }
  }

  lemma {:induction false} BalanceSumVanishes(vals: seq<real>)
    ensures BalanceSum(vals, vals) == 0
  {
    if vals != [] {
      var a, rest := vals[0], vals[1..];
      assert vals == [a] + rest;
      BalanceSumVanishes(rest);
      BalanceSumStep(a, rest, rest);
    }
  }

  lemma {:induction false} RankSumIsBalance(vals: seq<real>, xs: seq<real>)
    ensures RankSum(vals, xs) == (|xs| * (|vals| + 1) + BalanceSum(vals, xs)) as real / 2.0
  {
    if xs != [] {
      RankSumIsBalance(vals, xs[1..]);
      RankIsBalance(vals, xs[0]);
      assert |xs| * (|vals| + 1) == (|xs| - 1) * (|vals| + 1) + (|vals| + 1);
    }
  }

  /** Ties or not, the ranks add up to 1 + 2 + ... + n. */
  lemma RanksTotal(vals: seq<real>)
    ensures RankSum(vals, vals) == (|vals| * (|vals| + 1)) as real / 2.0
  {
    RankSumIsBalance(vals, vals);
    BalanceSumVanishes(vals);
  }

  // ---------------------------------------------------------------- spread of the ranks

  function Square(x: int): int { x * x }

  /** The sum of squared balances, four times the squared deviations of the ranks from their mean. */
  function Spread(vals: seq<real>, xs: seq<real>): int {
    if xs == [] then 0 else Square(Balance(vals, xs[0])) + Spread(vals, xs[1..])
  }

  function Cross(xs: seq<real>, ys: seq<real>, a: real): int {
    if ys == [] then 0 else Balance(xs, ys[0]) * Sign(a, ys[0]) + Cross(xs, ys[1..], a)
  }

  function Column(y: real, xs: seq<real>, a: real): int {
    if xs == [] then 0 else Sign(y, xs[0]) * Sign(a, xs[0]) + Column(y, xs[1..], a)
  }

  lemma {:induction false} ColumnBound(y: real, xs: seq<real>, a: real)
    ensures Balance(xs, a) * Sign(y, a) + Balance(xs, y) * Sign(a, y) + Column(y, xs, a) <= |xs|
  {
    if xs != [] {
      ColumnBound(y, xs[1..], a);
      var x, b, c := xs[0], Balance(xs[1..], a), Balance(xs[1..], y);
      assert (Sign(x, a) + b) * Sign(y, a) == Sign(x, a) * Sign(y, a) + b * Sign(y, a);
      assert (Sign(x, y) + c) * Sign(a, y) == Sign(x, y) * Sign(a, y) + c * Sign(a, y);
      TripleBound(x, y, a);
    }
  }

  /** Among three values at most one of the three products is lost. */
  lemma TripleBound(x: real, y: real, a: real)
    ensures Sign(x, a) * Sign(y, a) + Sign(x, y) * Sign(a, y) + Sign(y, x) * Sign(a, x) <= 1
  {
  }

  lemma {:induction false} CrossColumn(y: real, ys: seq<real>, xs: seq<real>, a: real)
    ensures Cross([y] + ys, xs, a) == Column(y, xs, a) + Cross(ys, xs, a)
  {
    if xs != [] {
      CrossColumn(y, ys, xs[1..], a);
      assert ([y] + ys)[1..] == ys;
      var b := Balance(ys, xs[0]);
      assert (Sign(y, xs[0]) + b) * Sign(a, xs[0]) == Sign(y, xs[0]) * Sign(a, xs[0]) + b * Sign(a, xs[0]);
    }
  }

  lemma {:induction false} PairBound(xs: seq<real>, ys: seq<real>, a: real)
    ensures Balance(xs, a) * Balance(ys, a) + Cross(xs, ys, a) + Cross(ys, xs, a) <= |xs| * |ys|
  {
    if ys == [] {
      CrossEmpty(xs, a);
    } else {
      var y, rest := ys[0], ys[1..];
      assert ys == [y] + rest;
      PairBound(xs, rest, a);
      CrossColumn(y, rest, xs, a);
      ColumnBound(y, xs, a);
      assert Balance(xs, a) * (Sign(y, a) + Balance(rest, a))
          == Balance(xs, a) * Sign(y, a) + Balance(xs, a) * Balance(rest, a);
      assert |xs| * |ys| == |xs| * |rest| + |xs|;
    }
  }

  lemma {:induction false} CrossEmpty(xs: seq<real>, a: real)
    ensures Cross([], xs, a) == 0
  {
    if xs != [] {
      CrossEmpty(xs[1..], a);
    }
  }

  function SignSquares(a: real, xs: seq<real>): int {
    if xs == [] then 0 else Square(Sign(a, xs[0])) + SignSquares(a, xs[1..])
  }

  lemma {:induction false} SpreadStep(a: real, vals: seq<real>, xs: seq<real>)
    ensures Spread([a] + vals, xs) == Spread(vals, xs) + 2 * Cross(vals, xs, a) + SignSquares(a, xs)
    ensures SignSquares(a, xs) <= |xs|
  {
    if xs != [] {
      SpreadStep(a, vals, xs[1..]);
      assert ([a] + vals)[1..] == vals;
      var b, s := Balance(vals, xs[0]), Sign(a, xs[0]);
      assert Square(s + b) == Square(b) + 2 * (b * s) + Square(s);
    }
  }

  function Cubic(n: int): int { n * (n * n - 1) }

  /** Ties only narrow the ranks: the squared deviations never exceed those of 1, 2, ..., n. */
  lemma {:induction false} SpreadBound(vals: seq<real>)
    ensures 3 * Spread(vals, vals) <= Cubic(|vals|)
  {
    if vals != [] {
      var a, rest, m := vals[0], vals[1..], |vals| - 1;
      assert vals == [a] + rest;
      SpreadBound(rest);
      SpreadStep(a, rest, rest);
      PairBound(rest, rest, a);
      assert Spread(vals, vals) <= Spread(rest, rest) + m * m + m;
      CubicStep(m);
    }
  }

  lemma CubicStep(m: int)
    ensures Cubic(m + 1) == Cubic(m) + 3 * (m * m + m)
  {
  }

  // ---------------------------------------------------------------- the coefficient

  function SquaredDistance(rx: seq<real>, ry: seq<real>): real
    requires |rx| == |ry|
  {
    if rx == [] then 0.0 else (rx[0] - ry[0]) * (rx[0] - ry[0]) + SquaredDistance(rx[1..], ry[1..])
  }

  function RankList(vals: seq<real>): (r: seq<real>)
    ensures |r| == |vals|
  {
    seq(|vals|, k requires 0 <= k < |vals| => AverageRank(vals, vals[k]))
  }

  function SpearmanOf(xs: seq<real>, ys: seq<real>): Option<real> {
    if |xs| != |ys| || |xs| < 2 then None
    else
      Some(FromDistance(SquaredDistance(RankList(xs), RankList(ys)), |xs|))
  }

  function FromDistance(d2: real, n: nat): real
    requires n >= 2
  {
    CubicPositive(n);
    1.0 - 6.0 * d2 / Cubic(n) as real
  }

  lemma {:induction false} DistanceAppend(rx: seq<real>, ry: seq<real>, k: nat)
    requires |rx| == |ry| && k < |rx|
    ensures SquaredDistance(rx[..k + 1], ry[..k + 1])
            == SquaredDistance(rx[..k], ry[..k]) + (rx[k] - ry[k]) * (rx[k] - ry[k])
    decreases k
  {
    assert rx[..k + 1][1..] == rx[1..][..k] && ry[..k + 1][1..] == ry[1..][..k];
    if k > 0 {
      assert rx[..k][1..] == rx[1..][..k - 1] && ry[..k][1..] == ry[1..][..k - 1];
      DistanceAppend(rx[1..], ry[1..], k - 1);
    }
  }

  method SumSquares(rx: array<real>, ry: array<real>) returns (d2: real)
    requires rx.Length == ry.Length
    ensures d2 == SquaredDistance(rx[..], ry[..])
  {
    d2 := 0.0;
    for k := 0 to rx.Length
      invariant d2 == SquaredDistance(rx[..][..k], ry[..][..k])
    {
      d2 := d2 + (rx[k] - ry[k]) * (rx[k] - ry[k]);
      DistanceAppend(rx[..], ry[..], k);
    }
    assert rx[..][..rx.Length] == rx[..] && ry[..][..rx.Length] == ry[..];
  }

  method Coefficient(xs: seq<real>, ys: seq<real>) returns (c: Option<real>)
    ensures c == SpearmanOf(xs, ys)
  {
    if |xs| != |ys| || |xs| < 2 {
      return None;
    }
    var rx := Ranks(xs);
    var ry := Ranks(ys);
    assert rx[..] == RankList(xs) && ry[..] == RankList(ys);
    var d2 := SumSquares(rx, ry);
    return Some(FromDistance(d2, |xs|));
  }

  lemma CubicPositive(n: int)
    requires n >= 2
    ensures Cubic(n) > 0
  {
    assert n * n >= 4 by { assert n * n >= 2 * n; }
  }

  /** The balance of every entry of `vals`. */
  function Balances(vals: seq<real>, xs: seq<real>): seq<int> {
    seq(|xs|, k requires 0 <= k < |xs| => Balance(vals, xs[k]))
  }

  function Differences(bs: seq<int>, cs: seq<int>): seq<int>
    requires |bs| == |cs|
  {
    seq(|bs|, k requires 0 <= k < |bs| => bs[k] - cs[k])
  }

  function SumOfSquares(ds: seq<int>): int {
    if ds == [] then 0 else Square(ds[0]) + SumOfSquares(ds[1..])
  }

  lemma {:induction false} SpreadIsSum(vals: seq<real>, xs: seq<real>)
    ensures Spread(vals, xs) == SumOfSquares(Balances(vals, xs))
  {
    if xs != [] {
      SpreadIsSum(vals, xs[1..]);
      assert Balances(vals, xs)[1..] == Balances(vals, xs[1..]);
    }
  }

  lemma {:induction false} DistanceInHalves(rx: seq<real>, ry: seq<real>, ds: seq<int>)
    requires |rx| == |ry| == |ds|
    requires forall k | 0 <= k < |ds| :: 2.0 * (rx[k] - ry[k]) == ds[k] as real
    ensures 4.0 * SquaredDistance(rx, ry) == SumOfSquares(ds) as real
  {
    if ds != [] {
      DistanceInHalves(rx[1..], ry[1..], ds[1..]);
      SquareOfHalf(rx[0] - ry[0], ds[0]);
    }
  }

  lemma SquareOfHalf(d: real, b: int)
    requires 2.0 * d == b as real
    ensures 4.0 * (d * d) == Square(b) as real
  {
    assert 4.0 * (d * d) == (2.0 * d) * (2.0 * d);
    assert b as real * b as real == (b * b) as real;
  }

  lemma RankDifference(xs: seq<real>, ys: seq<real>, u: real, v: real)
    requires |xs| == |ys|
    ensures 2.0 * (AverageRank(xs, u) - AverageRank(ys, v)) == (Balance(xs, u) - Balance(ys, v)) as real
  {
    RankIsBalance(xs, u);
    RankIsBalance(ys, v);
  }

  lemma Parallelogram(b: int, c: int)
    ensures 0 <= Square(b - c) <= 2 * Square(b) + 2 * Square(c)
    ensures Square(b) == 0 <==> b == 0
  {
    assert Square(b - c) + Square(b + c) == 2 * Square(b) + 2 * Square(c);
  }

  lemma {:induction false} DifferencesBound(bs: seq<int>, cs: seq<int>)
    requires |bs| == |cs|
    ensures SumOfSquares(Differences(bs, cs)) <= 2 * (SumOfSquares(bs) + SumOfSquares(cs))
  {
    if bs != [] {
      DifferencesBound(bs[1..], cs[1..]);
      assert Differences(bs, cs)[1..] == Differences(bs[1..], cs[1..]);
      Parallelogram(bs[0], cs[0]);
    }
  }

  lemma {:induction false} SumOfSquaresZero(ds: seq<int>)
    ensures SumOfSquares(ds) >= 0
    ensures SumOfSquares(ds) == 0 <==> forall k | 0 <= k < |ds| :: ds[k] == 0
  {
    if ds != [] {
      SumOfSquaresZero(ds[1..]);
      Parallelogram(ds[0], 0);
      if forall k | 0 <= k < |ds[1..]| :: ds[1..][k] == 0 {
        assert forall k | 1 <= k < |ds| :: ds[k] == ds[1..][k - 1];
      } else {
        var k :| 0 <= k < |ds[1..]| && ds[1..][k] != 0;
        assert ds[k + 1] != 0;
      }
    }
  }

  /** The differences of the balances of two lists of equal length. */
  function Shifts(xs: seq<real>, ys: seq<real>): seq<int>
    requires |xs| == |ys|
  {
    Differences(Balances(xs, xs), Balances(ys, ys))
  }

  lemma RankDistance(xs: seq<real>, ys: seq<real>)
    requires |xs| == |ys|
    ensures 4.0 * SquaredDistance(RankList(xs), RankList(ys)) == SumOfSquares(Shifts(xs, ys)) as real
  {
    forall k | 0 <= k < |xs|
      ensures 2.0 * (RankList(xs)[k] - RankList(ys)[k]) == Shifts(xs, ys)[k] as real
    {
      RankDifference(xs, ys, xs[k], ys[k]);
    }
    DistanceInHalves(RankList(xs), RankList(ys), Shifts(xs, ys));
  }

  /** The coefficient as an exact quotient of integers. */
  lemma CoefficientInBalances(xs: seq<real>, ys: seq<real>)
    requires |xs| == |ys| >= 2
    ensures Cubic(|xs|) > 0
    ensures SpearmanOf(xs, ys) == Some(1.0 - Ratio(3 * SumOfSquares(Shifts(xs, ys)), 2 * Cubic(|xs|)))
  {
    CubicPositive(|xs|);
    RankDistance(xs, ys);
    DistanceAsRatio(SquaredDistance(RankList(xs), RankList(ys)), SumOfSquares(Shifts(xs, ys)), |xs|);
  }

  lemma DistanceAsRatio(d: real, b: int, n: nat)
    requires n >= 2 && Cubic(n) > 0 && 4.0 * d == b as real
    ensures FromDistance(d, n) == 1.0 - Ratio(3 * b, 2 * Cubic(n))
  {
    Quotients(d, b, Cubic(n));
  }

  function Ratio(a: int, b: int): real
    requires b > 0
  {
    a as real / b as real
  }

  lemma Quotients(d: real, b: int, c: int)
    requires 4.0 * d == b as real && c > 0
    ensures 6.0 * d / c as real == Ratio(3 * b, 2 * c)
  {
    var q := 6.0 * d / c as real;
    assert q * c as real == 6.0 * d;
    assert q * (2 * c) as real == (3 * b) as real;
  }

  /** For every input, ties included, the coefficient lies in [-1, 1]. */
  lemma CoefficientInRange(xs: seq<real>, ys: seq<real>)
    requires |xs| == |ys| >= 2
    ensures SpearmanOf(xs, ys).Some? && -1.0 <= SpearmanOf(xs, ys).value <= 1.0
  {
    CoefficientInBalances(xs, ys);
    SumOfSquaresZero(Shifts(xs, ys));
    DifferencesBound(Balances(xs, xs), Balances(ys, ys));
    SpreadIsSum(xs, xs);
    SpreadIsSum(ys, ys);
    SpreadBound(xs);
    SpreadBound(ys);
    QuotientInRange(3 * SumOfSquares(Shifts(xs, ys)), 2 * Cubic(|xs|));
  }

  lemma QuotientInRange(a: int, b: int)
    requires b > 0 && 0 <= a <= 2 * b
    ensures 0.0 <= Ratio(a, b) <= 2.0
  {
    assert Ratio(a, b) * b as real == a as real;
    NonNegativeFactor(Ratio(a, b), b as real, a as real);
    NonNegativeFactor(2.0 - Ratio(a, b), b as real, 2.0 * b as real - a as real);
  }

  /** Both lists put every pair of positions in the same weak order. */
  ghost predicate SameWeakOrder(xs: seq<real>, ys: seq<real>)
    requires |xs| == |ys|
  {
    forall i, j | 0 <= i < |xs| && 0 <= j < |xs| :: xs[i] < xs[j] <==> ys[i] < ys[j]
  }

  lemma {:induction false} BalanceOfSameOrder(xs: seq<real>, ys: seq<real>, x: real, y: real)
    requires |xs| == |ys| && forall j | 0 <= j < |xs| :: Sign(xs[j], x) == Sign(ys[j], y)
    ensures Balance(xs, x) == Balance(ys, y)
  {
    if xs != [] {
      forall j | 0 <= j < |xs| - 1
        ensures Sign(xs[1..][j], x) == Sign(ys[1..][j], y)
      {
        assert xs[1..][j] == xs[j + 1] && ys[1..][j] == ys[j + 1];
      }
      BalanceOfSameOrder(xs[1..], ys[1..], x, y);
    }
  }

  lemma SameBalancesSameOrder(xs: seq<real>, ys: seq<real>)
    requires |xs| == |ys|
    ensures (forall k | 0 <= k < |xs| :: Balance(xs, xs[k]) == Balance(ys, ys[k])) <==> SameWeakOrder(xs, ys)
  {
    if forall k | 0 <= k < |xs| :: Balance(xs, xs[k]) == Balance(ys, ys[k]) {
      forall i, j | 0 <= i < |xs| && 0 <= j < |xs|
        ensures xs[i] < xs[j] <==> ys[i] < ys[j]
      {
        ByBalance(xs, i, j);
        ByBalance(ys, i, j);
      }
    }
    if SameWeakOrder(xs, ys) {
      forall k | 0 <= k < |xs|
        ensures Balance(xs, xs[k]) == Balance(ys, ys[k])
      {
        BalanceOfSameOrder(xs, ys, xs[k], ys[k]);
      }
    }
  }

  lemma ByBalance(vals: seq<real>, i: nat, j: nat)
    requires i < |vals| && j < |vals|
    ensures vals[i] < vals[j] <==> Balance(vals, vals[i]) < Balance(vals, vals[j])
  {
    RanksFollowValues(vals, i, j);
    RankIsBalance(vals, vals[i]);
    RankIsBalance(vals, vals[j]);
  }

  /** The coefficient is 1 exactly when the two lists induce the same weak order. */
  lemma CoefficientIsOne(xs: seq<real>, ys: seq<real>)
    requires |xs| == |ys| >= 2
    ensures SpearmanOf(xs, ys) == Some(1.0) <==> SameWeakOrder(xs, ys)
  {
    CoefficientInBalances(xs, ys);
    SumOfSquaresZero(Shifts(xs, ys));
    SameBalancesSameOrder(xs, ys);
    forall k | 0 <= k < |xs|
      ensures Shifts(xs, ys)[k] == Balance(xs, xs[k]) - Balance(ys, ys[k])
    {
    }
    if SumOfSquares(Shifts(xs, ys)) != 0 {
      var k :| 0 <= k < |xs| && Shifts(xs, ys)[k] != 0;
      assert Balance(xs, xs[k]) != Balance(ys, ys[k]);
    }
    ZeroQuotient(3 * SumOfSquares(Shifts(xs, ys)), 2 * Cubic(|xs|));
  }

  lemma ZeroQuotient(a: int, b: int)
    requires b > 0
    ensures Ratio(a, b) == 0.0 <==> a == 0
  {
    assert Ratio(a, b) * b as real == a as real;
  }
}
