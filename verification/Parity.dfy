/**
 The frozen vector and retrieval parity gate over the reals. The square root is a parameter of which
 only its defining property is used.
 */
module Parity {
  import opened Basics
  import opened Contract
  import opened Evidence
  import opened Acceptance
  import opened VectorMath
  import Spearman

  const TOPK: int := 10
  const MEDIAN_VECTOR_COSINE_MIN: real := 0.999
  const MIN_VECTOR_COSINE_MIN: real := 0.995
  const MEAN_TOP10_OVERLAP_MIN: real := 0.95
  const MIN_TOP10_OVERLAP_MIN: real := 0.80
  const TOP1_AGREEMENT_MIN: int := 15

  datatype ParityError = WrongShape | ZeroNorm

  datatype Metrics = Metrics(
    maxNormError: real,
    medianDocumentCosine: real,
    minDocumentCosine: real,
    medianQueryCosine: real,
    minQueryCosine: real,
    meanOverlap: real,
    minOverlap: real,
    top1Agreement: int)

  // ---------------------------------------------------------------- statistics

  function MaxOf(s: seq<real>): (m: real)
    requires s != []
    ensures m in s && forall x | x in s :: x <= m
  {
    if |s| == 1 then s[0]
    else
      var rest := MaxOf(s[1..]);
      assert forall x :: x in s <==> x == s[0] || x in s[1..];
      if rest <= s[0] then s[0] else rest
  }

  function MinOf(s: seq<real>): (m: real)
    requires s != []
    ensures m in s && forall x | x in s :: m <= x
  {
    if |s| == 1 then s[0]
    else
      var rest := MinOf(s[1..]);
      assert forall x :: x in s <==> x == s[0] || x in s[1..];
      if s[0] <= rest then s[0] else rest
  }

  /** `statistics.median` of an even number of values. */
  function Median(s: seq<real>): real
    requires s != [] && |s| % 2 == 0
  {
    var order := Spearman.Order(s);
    (s[order[|s| / 2 - 1]] + s[order[|s| / 2]]) / 2.0
  }

  lemma ConstantMedian(s: seq<real>, c: real)
    requires s != [] && |s| % 2 == 0 && Constant(s, c)
    ensures Median(s) == c && MinOf(s) == c
  {
  }

  lemma SameMembersSameMax(s: seq<real>, t: seq<real>)
    requires s != [] && t != [] && forall x :: x in s <==> x in t
    ensures MaxOf(s) == MaxOf(t)
  {
  }

  // ---------------------------------------------------------------- retrieval

  function Keys(query: seq<real>, documents: seq<seq<real>>): seq<real>
    requires forall d | d in documents :: |d| == |query|
  {
    seq(|documents|, i requires 0 <= i < |documents| => -Dot(query, documents[i]))
  }

  /** The documents by falling dot product with the query, ties by index. */
  function Ranking(query: seq<real>, documents: seq<seq<real>>): (r: seq<int>)
    requires |documents| >= TOPK && forall d | d in documents :: |d| == |query|
    ensures |r| == TOPK
  {
    Spearman.Order(Keys(query, documents))[..TOPK]
  }

  lemma RankingDistinct(query: seq<real>, documents: seq<seq<real>>)
    requires |documents| >= TOPK && forall d | d in documents :: |d| == |query|
    ensures forall p, q | 0 <= p < q < TOPK :: Ranking(query, documents)[p] != Ranking(query, documents)[q]
  {
    Spearman.OrderSorts(Keys(query, documents));
  }

  /** No document outside the ranking beats one inside it, and the ranking falls. */
  lemma RankingIsTop(query: seq<real>, documents: seq<seq<real>>, p: nat, d: nat)
    requires |documents| >= TOPK && forall d | d in documents :: |d| == |query|
    requires p < TOPK && d < |documents|
    requires forall q | 0 <= q < p :: Ranking(query, documents)[q] != d
    ensures Ranking(query, documents)[p] < |documents|
    ensures Dot(query, documents[d]) <= Dot(query, documents[Ranking(query, documents)[p]])
  {
    FirstIsLeast(Keys(query, documents), Ranking(query, documents), p, d);
  }

  /** Of the entries not listed before position `p`, the one at `p` is the least. */
  lemma FirstIsLeast(keys: seq<real>, top: seq<int>, p: nat, d: nat)
    requires p < |top| <= |keys| && top == Spearman.Order(keys)[..|top|] && d < |keys|
    requires forall q | 0 <= q < p :: top[q] != d
    ensures 0 <= top[p] < |keys| && keys[top[p]] <= keys[d]
  {
    Spearman.OrderSorts(keys);
    assert forall q | 0 <= q < p :: Spearman.Order(keys)[q] == top[q] != d;
    assert d in Spearman.Order(keys);
    var at :| 0 <= at < |keys| && Spearman.Order(keys)[at] == d;
  }

  function Members(s: seq<int>): set<int> {
    set x | x in s
  }

  function Overlap(a: seq<int>, b: seq<int>): real {
    |Members(a) * Members(b)| as real / TOPK as real
  }

  lemma {:induction false} MembersSize(s: seq<int>)
    requires forall p, q | 0 <= p < q < |s| :: s[p] != s[q]
    ensures |Members(s)| == |s|
  {
    if s == [] {
      assert Members(s) == {};
    } else {
      var rest := s[..|s| - 1];
      MembersSize(rest);
      assert Members(s) == Members(rest) + {s[|s| - 1]};
    }
  }

  lemma SelfOverlap(query: seq<real>, documents: seq<seq<real>>)
    requires |documents| >= TOPK && forall d | d in documents :: |d| == |query|
    ensures Overlap(Ranking(query, documents), Ranking(query, documents)) == 1.0
  {
    var r := Ranking(query, documents);
    RankingDistinct(query, documents);
    MembersSize(r);
    assert Members(r) * Members(r) == Members(r);
  }

  lemma OverlapSymmetric(a: seq<int>, b: seq<int>)
    ensures Overlap(a, b) == Overlap(b, a)
  {
    assert Members(a) * Members(b) == Members(b) * Members(a);
  }

  // ---------------------------------------------------------------- the gate

  predicate Shaped(v: Vectors) {
    && |v.documents| == 32 && |v.queries| == 16
    && (forall d | d in v.documents :: |d| == VECTOR_DIMENSION)
    && (forall q | q in v.queries :: |q| == VECTOR_DIMENSION)
  }

  predicate NonZero(sqrt: real -> real, v: Vectors) {
    && (forall d | d in v.documents :: Norm(sqrt, d) != 0.0)
    && (forall q | q in v.queries :: Norm(sqrt, q) != 0.0)
  }

  /** Two sets of vectors the gate can compare. */
  predicate Comparable(sqrt: real -> real, reference: Vectors, candidate: Vectors) {
    Shaped(reference) && Shaped(candidate) && NonZero(sqrt, reference) && NonZero(sqrt, candidate)
  }

  function NormErrors(sqrt: real -> real, vectors: seq<seq<real>>): seq<real> {
    seq(|vectors|, i requires 0 <= i < |vectors| =>
      var e := Norm(sqrt, vectors[i]) - 1.0; if e < 0.0 then -e else e)
  }

  function DocumentCosines(sqrt: real -> real, a: Vectors, b: Vectors): (r: seq<real>)
    requires Comparable(sqrt, a, b)
    ensures |r| == 32
  {
    seq(32, i requires 0 <= i < 32 => Cosine(sqrt, a.documents[i], b.documents[i]))
  }

  function QueryCosines(sqrt: real -> real, a: Vectors, b: Vectors): (r: seq<real>)
    requires Comparable(sqrt, a, b)
    ensures |r| == 16
  {
    seq(16, i requires 0 <= i < 16 => Cosine(sqrt, a.queries[i], b.queries[i]))
  }

  function RankingAt(v: Vectors, i: nat): (r: seq<int>)
    requires Shaped(v) && i < 16
    ensures |r| == TOPK
  {
    Ranking(v.queries[i], v.documents)
  }

  function Overlaps(a: Vectors, b: Vectors): (r: seq<real>)
    requires Shaped(a) && Shaped(b)
    ensures |r| == 16
  {
    seq(16, i requires 0 <= i < 16 => Overlap(RankingAt(a, i), RankingAt(b, i)))
  }

  /** How many of the first `n` queries agree on the best document. */
  function Top1(a: Vectors, b: Vectors, n: nat): nat
    requires Shaped(a) && Shaped(b) && n <= 16
  {
    if n == 0 then 0 else Top1(a, b, n - 1) + (if RankingAt(a, n - 1)[0] == RankingAt(b, n - 1)[0] then 1 else 0)
  }

  function MetricsOf(sqrt: real -> real, a: Vectors, b: Vectors): Metrics
    requires Comparable(sqrt, a, b)
  {
    Metrics(
      MaxOf(NormErrors(sqrt, a.documents + b.documents + a.queries + b.queries)),
      Median(DocumentCosines(sqrt, a, b)), MinOf(DocumentCosines(sqrt, a, b)),
      Median(QueryCosines(sqrt, a, b)), MinOf(QueryCosines(sqrt, a, b)),
      Sum(Overlaps(a, b)) / 16.0, MinOf(Overlaps(a, b)), Top1(a, b, 16))
  }

  /** `evaluate_parity`. */
  function EvaluateParity(sqrt: real -> real, reference: Vectors, candidate: Vectors): Result<Metrics, ParityError> {
    if !Shaped(reference) || !Shaped(candidate) then Err(WrongShape)
    else if !NonZero(sqrt, reference) || !NonZero(sqrt, candidate) then Err(ZeroNorm)
    else Ok(MetricsOf(sqrt, reference, candidate))
  }

  predicate Passed(m: Metrics) {
    && m.maxNormError <= VECTOR_NORM_TOLERANCE
    && m.medianDocumentCosine >= MEDIAN_VECTOR_COSINE_MIN && m.minDocumentCosine >= MIN_VECTOR_COSINE_MIN
    && m.medianQueryCosine >= MEDIAN_VECTOR_COSINE_MIN && m.minQueryCosine >= MIN_VECTOR_COSINE_MIN
    && m.meanOverlap >= MEAN_TOP10_OVERLAP_MIN && m.minOverlap >= MIN_TOP10_OVERLAP_MIN
    && m.top1Agreement >= TOP1_AGREEMENT_MIN
  }

  predicate ParityPasses(sqrt: real -> real, reference: Vectors, candidate: Vectors) {
    EvaluateParity(sqrt, reference, candidate).Ok? && Passed(EvaluateParity(sqrt, reference, candidate).value)
  }

  /** The loop over the queries. */
  method CompareRankings(a: Vectors, b: Vectors) returns (overlaps: seq<real>, top1: nat)
    requires Shaped(a) && Shaped(b)
    ensures overlaps == Overlaps(a, b) && top1 == Top1(a, b, 16)
  {
    overlaps, top1 := [], 0;
    for i := 0 to 16
      invariant top1 == Top1(a, b, i)
      invariant overlaps == Overlaps(a, b)[..i]
    {
      var reference, candidate := RankingAt(a, i), RankingAt(b, i);
      QueryStep(a, b, i, reference, candidate);
      overlaps := overlaps + [Overlap(reference, candidate)];
      if reference[0] == candidate[0] {
        top1 := top1 + 1;
      }
    }
  }

  lemma QueryStep(a: Vectors, b: Vectors, i: nat, reference: seq<int>, candidate: seq<int>)
    requires Shaped(a) && Shaped(b) && i < 16
    requires reference == RankingAt(a, i) && candidate == RankingAt(b, i)
    ensures Overlaps(a, b)[..i + 1] == Overlaps(a, b)[..i] + [Overlap(reference, candidate)]
    ensures Top1(a, b, i + 1) == Top1(a, b, i) + (if reference[0] == candidate[0] then 1 else 0)
  {
  }

  // ---------------------------------------------------------------- symmetry

  lemma CosinesSymmetric(sqrt: real -> real, a: Vectors, b: Vectors)
    requires Comparable(sqrt, a, b)
    ensures DocumentCosines(sqrt, a, b) == DocumentCosines(sqrt, b, a)
    ensures QueryCosines(sqrt, a, b) == QueryCosines(sqrt, b, a)
  {
    forall i | 0 <= i < 32
      ensures DocumentCosines(sqrt, a, b)[i] == DocumentCosines(sqrt, b, a)[i]
    {
      CosineSymmetric(sqrt, a.documents[i], b.documents[i]);
    }
    forall i | 0 <= i < 16
      ensures QueryCosines(sqrt, a, b)[i] == QueryCosines(sqrt, b, a)[i]
    {
      CosineSymmetric(sqrt, a.queries[i], b.queries[i]);
    }
  }

  lemma OverlapsSymmetric(a: Vectors, b: Vectors)
    requires Shaped(a) && Shaped(b)
    ensures Overlaps(a, b) == Overlaps(b, a)
  {
    forall i | 0 <= i < 16
      ensures Overlaps(a, b)[i] == Overlaps(b, a)[i]
    {
      OverlapSymmetric(RankingAt(a, i), RankingAt(b, i));
    }
  }

  lemma {:induction false} Top1Symmetric(a: Vectors, b: Vectors, n: nat)
    requires Shaped(a) && Shaped(b) && n <= 16
    ensures Top1(a, b, n) == Top1(b, a, n)
  {
    if n > 0 {
      Top1Symmetric(a, b, n - 1);
    }
  }

  lemma NormErrorMember(sqrt: real -> real, s: seq<seq<real>>, t: seq<seq<real>>, e: real)
    requires e in NormErrors(sqrt, s) && forall v | v in s :: v in t
    ensures e in NormErrors(sqrt, t)
  {
    var i :| 0 <= i < |s| && NormErrors(sqrt, s)[i] == e;
    assert s[i] in t;
    var j :| 0 <= j < |t| && t[j] == s[i];
    assert NormErrors(sqrt, t)[j] == e;
  }

  lemma NormErrorsSymmetric(sqrt: real -> real, s: seq<seq<real>>, t: seq<seq<real>>)
    requires s != [] && t != [] && forall v :: v in s <==> v in t
    ensures MaxOf(NormErrors(sqrt, s)) == MaxOf(NormErrors(sqrt, t))
  {
    forall e
      ensures e in NormErrors(sqrt, s) <==> e in NormErrors(sqrt, t)
    {
      if e in NormErrors(sqrt, s) { NormErrorMember(sqrt, s, t, e); }
      if e in NormErrors(sqrt, t) { NormErrorMember(sqrt, t, s, e); }
    }
    SameMembersSameMax(NormErrors(sqrt, s), NormErrors(sqrt, t));
  }

  /** The gate does not care which side is the reference: every metric and every error agrees. */
  lemma ParitySymmetric(sqrt: real -> real, a: Vectors, b: Vectors)
    ensures EvaluateParity(sqrt, a, b).Ok? == EvaluateParity(sqrt, b, a).Ok?
    ensures EvaluateParity(sqrt, a, b) == EvaluateParity(sqrt, b, a)
  {
    if Comparable(sqrt, a, b) {
      MetricsSymmetric(sqrt, a, b);
    }
  }

  lemma MetricsSymmetric(sqrt: real -> real, a: Vectors, b: Vectors)
    requires Comparable(sqrt, a, b)
    ensures MetricsOf(sqrt, a, b) == MetricsOf(sqrt, b, a)
  {
    CosinesSymmetric(sqrt, a, b);
    OverlapsSymmetric(a, b);
    Top1Symmetric(a, b, 16);
    NormErrorsSymmetric(sqrt, a.documents + b.documents + a.queries + b.queries,
                        b.documents + a.documents + b.queries + a.queries);
  }

  // ---------------------------------------------------------------- self parity

  /** Every vector of the set is within the norm tolerance. */
  predicate NormValid(sqrt: real -> real, v: Vectors) {
    && Shaped(v)
    && (forall d | d in v.documents :: -VECTOR_NORM_TOLERANCE <= Norm(sqrt, d) - 1.0 <= VECTOR_NORM_TOLERANCE)
    && (forall q | q in v.queries :: -VECTOR_NORM_TOLERANCE <= Norm(sqrt, q) - 1.0 <= VECTOR_NORM_TOLERANCE)
  }

  lemma SquaresOrder(a: real, b: real, aa: real, bb: real)
    requires a >= 0.0 && b >= 0.0 && aa == a * a && bb == b * b
    ensures a <= b <==> aa <= bb
  {
    var gap, sum := b - a, b + a;
    assert bb - aa == gap * sum;
    if a < b {
      assert gap * sum > 0.0;
    } else if b < a {
      assert (-gap) * sum > 0.0;
    }
  }

  /** Comparing squares, as the evidence reduction is modelled, is comparing norms. */
  lemma NormOkIsTolerance(sqrt: real -> real, v: seq<real>)
    requires IsSqrt(sqrt)
    ensures NormOk(v) <==>
              |v| == VECTOR_DIMENSION && -VECTOR_NORM_TOLERANCE <= Norm(sqrt, v) - 1.0 <= VECTOR_NORM_TOLERANCE
  {
    DotSelf(v);
    var low, high := 1.0 - VECTOR_NORM_TOLERANCE, 1.0 + VECTOR_NORM_TOLERANCE;
    SquaresOrder(low, Norm(sqrt, v), low * low, SquareSum(v));
    SquaresOrder(Norm(sqrt, v), high, SquareSum(v), high * high);
  }

  /** The vectors of a correct run are exactly the norm-valid ones. */
  lemma CorrectIsNormValid(sqrt: real -> real, v: Vectors)
    requires IsSqrt(sqrt)
    ensures VectorsCorrect(v) <==> NormValid(sqrt, v)
  {
    forall x: seq<real>
      ensures NormOk(x) <==>
                |x| == VECTOR_DIMENSION && -VECTOR_NORM_TOLERANCE <= Norm(sqrt, x) - 1.0 <= VECTOR_NORM_TOLERANCE
    {
      NormOkIsTolerance(sqrt, x);
    }
  }

  lemma SelfCosines(sqrt: real -> real, v: Vectors)
    requires IsSqrt(sqrt) && Comparable(sqrt, v, v)
    ensures Constant(DocumentCosines(sqrt, v, v), 1.0) && Constant(QueryCosines(sqrt, v, v), 1.0)
  {
    forall i | 0 <= i < 32
      ensures DocumentCosines(sqrt, v, v)[i] == 1.0
    {
      CosineSelf(sqrt, v.documents[i]);
    }
    forall i | 0 <= i < 16
      ensures QueryCosines(sqrt, v, v)[i] == 1.0
    {
      CosineSelf(sqrt, v.queries[i]);
    }
  }

  lemma SelfOverlaps(v: Vectors)
    requires Shaped(v)
    ensures Constant(Overlaps(v, v), 1.0)
  {
    forall i | 0 <= i < 16
      ensures Overlaps(v, v)[i] == 1.0
    {
      SelfOverlap(v.queries[i], v.documents);
    }
  }

  lemma {:induction false} SelfTop1(v: Vectors, n: nat)
    requires Shaped(v) && n <= 16
    ensures Top1(v, v, n) == n
  {
    if n > 0 {
      SelfTop1(v, n - 1);
    }
  }

  /** A norm-valid set of vectors passes against itself, with every metric at its best value. */
  lemma SelfParityPasses(sqrt: real -> real, v: Vectors)
    requires IsSqrt(sqrt) && NormValid(sqrt, v)
    ensures ParityPasses(sqrt, v, v)
    ensures var m := EvaluateParity(sqrt, v, v).value;
            && m.minDocumentCosine == m.medianDocumentCosine == 1.0
            && m.minQueryCosine == m.medianQueryCosine == 1.0
            && m.minOverlap == m.meanOverlap == 1.0 && m.top1Agreement == 16
  {
    SelfMetrics(sqrt, v);
    SelfNorms(sqrt, v);
  }

  lemma SelfMetrics(sqrt: real -> real, v: Vectors)
    requires IsSqrt(sqrt) && Comparable(sqrt, v, v)
    ensures var m := MetricsOf(sqrt, v, v);
            && m.minDocumentCosine == m.medianDocumentCosine == 1.0
            && m.minQueryCosine == m.medianQueryCosine == 1.0
            && m.minOverlap == m.meanOverlap == 1.0 && m.top1Agreement == 16
  {
    SelfCosines(sqrt, v);
    ConstantMedian(DocumentCosines(sqrt, v, v), 1.0);
    ConstantMedian(QueryCosines(sqrt, v, v), 1.0);
    SelfOverlaps(v);
    ConstantMedian(Overlaps(v, v), 1.0);
    ConstantSum(Overlaps(v, v), 1.0);
    SelfTop1(v, 16);
  }

  lemma SelfNorms(sqrt: real -> real, v: Vectors)
    requires NormValid(sqrt, v)
    ensures MaxOf(NormErrors(sqrt, v.documents + v.documents + v.queries + v.queries)) <= VECTOR_NORM_TOLERANCE
  {
    var all := v.documents + v.documents + v.queries + v.queries;
    forall e | e in NormErrors(sqrt, all)
      ensures e <= VECTOR_NORM_TOLERANCE
    {
      var i :| 0 <= i < |all| && NormErrors(sqrt, all)[i] == e;
      assert all[i] in v.documents || all[i] in v.queries;
    }
  }

  /** A passing set is norm-valid: self parity passes exactly for those. */
  lemma SelfParityNeedsNorms(sqrt: real -> real, v: Vectors)
    requires ParityPasses(sqrt, v, v)
    ensures NormValid(sqrt, v)
  {
    var all := v.documents + v.documents + v.queries + v.queries;
    forall x | x in v.documents || x in v.queries
      ensures -VECTOR_NORM_TOLERANCE <= Norm(sqrt, x) - 1.0 <= VECTOR_NORM_TOLERANCE
    {
      assert x in all;
      var i :| 0 <= i < |all| && all[i] == x;
      assert NormErrors(sqrt, all)[i] in NormErrors(sqrt, all);
    }
  }

  // ---------------------------------------------------------------- the campaign's own gate

  /** The parity gate of the campaign. */
  function CampaignParity(sqrt: real -> real): ParityGate {
    (reference, candidate) => ParityPasses(sqrt, reference, candidate)
  }
}
