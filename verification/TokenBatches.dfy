/** The frozen M4 token partitions, and encoding a workload through them. */
module TokenBatches {
  import opened Basics
  import opened Packing
  import opened Sorting

  datatype TokenError = NotThirtyTwoPositiveCounts | SequenceExceedsBudget

  const EXPECTED_BATCH_SIZE: int := 32
  const MAX_ITEMS: int := 32

  // ---------------------------------------------------------------- token summary

  function IntLe(): (int, int) -> bool {
    (a, b) => a <= b
  }

  /** Nearest-rank p95: the entry of rank `max(1, ceil(0.95 n))`. */
  function P95(counts: seq<int>): int
    requires counts != []
  {
    Sort(IntLe(), counts)[P95Rank(|counts|) - 1]
  }

  function P95Rank(n: nat): int {
    Max(1, (19 * n + 19) / 20)
  }

  /** It is one of the counts, and splits them at its rank. */
  lemma P95Splits(counts: seq<int>) returns (sorted: seq<int>)
    requires counts != []
    ensures |sorted| == |counts| && multiset(sorted) == multiset(counts)
    ensures 1 <= P95Rank(|counts|) <= |counts|
    ensures sorted[P95Rank(|counts|) - 1] == P95(counts) && P95(counts) in counts
    ensures forall i | 0 <= i < |sorted|
              :: if i < P95Rank(|counts|) then sorted[i] <= P95(counts) else P95(counts) <= sorted[i]
  {
    sorted := Sort(IntLe(), counts);
    SortOrdered(IntLe(), counts);
    SortMembers(IntLe(), counts);
    SameMembers(sorted, counts, P95(counts));
  }

  // ---------------------------------------------------------------- partitions

  function CountAt(counts: seq<int>, index: int): int {
    if 0 <= index < |counts| then counts[index] else 0
  }

  function MaxCount(counts: seq<int>, part: seq<int>): (m: int)
    ensures 0 <= m
    ensures forall i | i in part :: CountAt(counts, i) <= m
    ensures m == 0 || exists i | i in part :: CountAt(counts, i) == m
  {
    if part == [] then 0
    else
      assert part == part[..|part| - 1] + [part[|part| - 1]];
      Max(MaxCount(counts, part[..|part| - 1]), CountAt(counts, part[|part| - 1]))
  }

  function PaddedCost(counts: seq<int>, part: seq<int>): int {
    |part| * MaxCount(counts, part)
  }

  /** A partition keeps the item cap and the padded-token budget. */
  function TokenFits(counts: seq<int>, budget: int): seq<int> -> bool {
    part => |part| <= EXPECTED_BATCH_SIZE && PaddedCost(counts, part) <= budget
  }

  function TokenPartitions(counts: seq<int>, budget: int): seq<seq<int>> {
    Greedy(TokenFits(counts, budget), [], Indices(|counts|))
  }

  /** `greedy_token_partitions`: the 32-item guard, the frozen budget, and the partitions. */
  function GreedyTokenPartitions(counts: seq<int>): Result<Option<seq<seq<int>>>, TokenError> {
    if |counts| != MAX_ITEMS || exists c | c in counts :: c <= 0 then
      Err(NotThirtyTwoPositiveCounts)
    else
      var budget := EXPECTED_BATCH_SIZE * P95(counts);
      if exists c | c in counts :: c > budget then Ok(None) else Ok(Some(TokenPartitions(counts, budget)))
  }

  lemma MaxCountSlice(counts: seq<int>, part: seq<int>, i: int, j: int)
    requires 0 <= i <= j <= |part|
    ensures MaxCount(counts, part[i..j]) <= MaxCount(counts, part)
    ensures PaddedCost(counts, part[i..j]) <= PaddedCost(counts, part)
  {
    var a, b := MaxCount(counts, part[i..j]), MaxCount(counts, part);
    if a != 0 {
      var x :| x in part[i..j] && CountAt(counts, x) == a;
      assert x in part;
    }
    MulMonotone(j - i, |part|, a, b);
  }

  lemma MulMonotone(a: int, b: int, x: int, y: int)
    requires 0 <= a <= b && 0 <= x <= y
    ensures a * x <= b * y
  {
    assert b * y - a * x == (b - a) * y + a * (y - x);
    assert (b - a) * y >= 0 && a * (y - x) >= 0;
  }

  lemma TokenFitsSliceClosed(counts: seq<int>, budget: int)
    ensures SliceClosed(TokenFits(counts, budget))
  {
    var fits := TokenFits(counts, budget);
    forall s: seq<int>, i: int, j: int | 0 <= i <= j <= |s| && fits(s)
      ensures fits(s[i..j])
    {
      MaxCountSlice(counts, s, i, j);
    }
  }

  /** The loop has packed the first `index` items; what it still yields completes the greedy packing. */
  ghost predicate OnCourse(counts: seq<int>, budget: int, partitions: seq<seq<int>>, current: seq<int>, index: int)
    requires 0 <= index <= |counts|
  {
    partitions + Greedy(TokenFits(counts, budget), current, Indices(|counts|)[index..])
    == TokenPartitions(counts, budget)
  }

  lemma MaxCountAppend(counts: seq<int>, current: seq<int>, index: int)
    requires 0 <= index < |counts|
    ensures MaxCount(counts, current + [index]) == Max(MaxCount(counts, current), counts[index])
  {
    assert (current + [index])[..|current|] == current;
  }

  /** One turn of the loop, with and without closing the open partition. */
  lemma TokenStep(counts: seq<int>, budget: int, partitions: seq<seq<int>>, current: seq<int>, index: int)
    requires 0 <= index < |counts|
    requires OnCourse(counts, budget, partitions, current, index)
    ensures if current != [] && !TokenFits(counts, budget)(current + [index])
            then OnCourse(counts, budget, partitions + [current], [] + [index], index + 1)
            else OnCourse(counts, budget, partitions, current + [index], index + 1)
  {
    var fits := TokenFits(counts, budget);
    var rest := Indices(|counts|)[index..];
    assert rest[0] == index && rest[1..] == Indices(|counts|)[index + 1..];
    var tail := Greedy(fits, [index], rest[1..]);
    assert partitions + ([current] + tail) == (partitions + [current]) + tail;
    assert [] + [index] == [index];
  }

  lemma TokenStart(counts: seq<int>, budget: int)
    ensures OnCourse(counts, budget, [], [], 0)
  {
    assert Indices(|counts|)[0..] == Indices(|counts|);
    assert [] + TokenPartitions(counts, budget) == TokenPartitions(counts, budget);
  }

  lemma TokenFinish(counts: seq<int>, budget: int, partitions: seq<seq<int>>, current: seq<int>)
    requires OnCourse(counts, budget, partitions, current, |counts|)
    ensures TokenPartitions(counts, budget) == if current == [] then partitions else partitions + [current]
  {
    assert Indices(|counts|)[|counts|..] == [];
    assert partitions + [] == partitions;
  }

  lemma SingleMax(counts: seq<int>, index: int)
    requires 0 <= index < |counts| && forall c | c in counts :: c > 0
    ensures MaxCount(counts, [] + [index]) == counts[index]
  {
    MaxCountAppend(counts, [], index);
    assert counts[index] in counts;
  }

  method MaximumCount(counts: seq<int>) returns (maximum: int)
    requires counts != []
    ensures maximum in counts && forall c | c in counts :: c <= maximum
  {
    maximum := counts[0];
    for k := 1 to |counts|
      invariant maximum in counts
      invariant forall j | 0 <= j < k :: counts[j] <= maximum
    {
      if counts[k] > maximum {
        maximum := counts[k];
      }
    }
  }

  /** The source's loop, for any number of positive token counts and any budget. */
  method PartitionTokens(counts: seq<int>, budget: int) returns (result: Option<seq<seq<int>>>)
    requires counts != [] && forall c | c in counts :: c > 0
    ensures result.None? <==> exists c | c in counts :: c > budget
    ensures result.Some? ==> result.value == TokenPartitions(counts, budget)
  {
    var maximum := MaximumCount(counts);
    if maximum > budget {
      return None;
    }
    var partitions: seq<seq<int>> := [];
    var current: seq<int> := [];
    var currentMax := 0;
    TokenStart(counts, budget);
    for index := 0 to |counts|
      invariant currentMax == MaxCount(counts, current)
      invariant OnCourse(counts, budget, partitions, current, index)
    {
      TokenStep(counts, budget, partitions, current, index);
      MaxCountAppend(counts, current, index);
      SingleMax(counts, index);
      var nextMax := Max(currentMax, counts[index]);
      if current != [] && (|current| >= EXPECTED_BATCH_SIZE || (|current| + 1) * nextMax > budget) {
        partitions := partitions + [current];
        current := [];
        nextMax := counts[index];
      }
      current := current + [index];
      currentMax := nextMax;
    }
    TokenFinish(counts, budget, partitions, current);
    if current != [] {
      partitions := partitions + [current];
    }
    return Some(partitions);
  }

  method PartitionFrozenWorkload(counts: seq<int>) returns (result: Result<Option<seq<seq<int>>>, TokenError>)
    ensures result == GreedyTokenPartitions(counts)
  {
    if |counts| != MAX_ITEMS || exists c | c in counts :: c <= 0 {
      return Err(NotThirtyTwoPositiveCounts);
    }
    var partitions := PartitionTokens(counts, EXPECTED_BATCH_SIZE * P95(counts));
    return Ok(partitions);
  }

  lemma SingleToken(counts: seq<int>, i: int)
    requires 0 <= i < |counts| && counts[i] > 0
    ensures PaddedCost(counts, [i]) == counts[i]
  {
    var m := MaxCount(counts, [i]);
    assert i in [i] && CountAt(counts, i) <= m;
    if m != 0 {
      var x :| x in [i] && CountAt(counts, x) == m;
    }
  }

  /** The partitions are non-empty, cover 0..n-1 in order, each within the item cap and the budget. */
  lemma TokenPartitionsPack(counts: seq<int>, budget: int)
    requires forall c | c in counts :: 0 < c <= budget
    ensures Packs(TokenFits(counts, budget), TokenPartitions(counts, budget), Indices(|counts|))
  {
    forall x | x in Indices(|counts|)
      ensures TokenFits(counts, budget)([x])
    {
      assert x == Indices(|counts|)[x];
      assert counts[x] in counts;
      SingleToken(counts, x);
    }
    GreedyPacks(TokenFits(counts, budget), [], Indices(|counts|));
    assert [] + Indices(|counts|) == Indices(|counts|);
  }

  /** No consecutive partition of the same indices within both limits uses fewer. */
  lemma TokenPartitionsOptimal(counts: seq<int>, budget: int, other: seq<seq<int>>)
    requires Packs(TokenFits(counts, budget), other, Indices(|counts|))
    ensures |TokenPartitions(counts, budget)| <= |other|
  {
    TokenFitsSliceClosed(counts, budget);
    GreedyOptimal(TokenFits(counts, budget), Indices(|counts|), other);
  }

  /** A packing within the budget exists exactly when no item alone exceeds it. */
  lemma TokenPackingExists(counts: seq<int>, budget: int)
    requires forall c | c in counts :: c > 0
    ensures (exists other :: Packs(TokenFits(counts, budget), other, Indices(|counts|)))
            <==> forall c | c in counts :: c <= budget
  {
    var fits := TokenFits(counts, budget);
    var all := Indices(|counts|);
    if forall c | c in counts :: c <= budget {
      TokenPartitionsPack(counts, budget);
    }
    if other :| Packs(fits, other, all) {
      TokenFitsSliceClosed(counts, budget);
      forall c | c in counts
        ensures c <= budget
      {
        var k :| 0 <= k < |counts| && counts[k] == c;
        assert all[k] == k;
        SingletonsFit(fits, other, all, k);
        SingleToken(counts, k);
      }
    }
  }

  /** For the frozen 32 items the cap is implied: only the budget limits the alternatives. */
  lemma FrozenPartitionsOptimal(counts: seq<int>, partitions: seq<seq<int>>, other: seq<seq<int>>)
    requires GreedyTokenPartitions(counts) == Ok(Some(partitions))
    requires Concat(other) == Indices(|counts|)
    requires forall i | 0 <= i < |other| ::
               other[i] != [] && PaddedCost(counts, other[i]) <= EXPECTED_BATCH_SIZE * P95(counts)
    ensures |partitions| <= |other|
  {
    var budget := EXPECTED_BATCH_SIZE * P95(counts);
    forall i | 0 <= i < |other|
      ensures TokenFits(counts, budget)(other[i])
    {
      PartNoLonger(other, i);
    }
    TokenPartitionsOptimal(counts, budget, other);
  }

  lemma {:induction false} PartNoLonger<T>(parts: seq<seq<T>>, i: nat)
    requires i < |parts|
    ensures |parts[i]| <= |Concat(parts)|
  {
    if i > 0 {
      PartNoLonger(parts[1..], i - 1);
    }
  }

  // ---------------------------------------------------------------- padding

  /** Total padded tokens over all partitions. */
  function PaddedTokens(counts: seq<int>, parts: seq<seq<int>>): int {
    if parts == [] then 0 else PaddedCost(counts, parts[0]) + PaddedTokens(counts, parts[1..])
  }

  /** However the indices are partitioned, the padding never exceeds that of one fixed batch. */
  lemma {:induction false} PaddingNeverGrows(counts: seq<int>, parts: seq<seq<int>>, whole: seq<int>)
    requires forall i | i in Concat(parts) :: i in whole
    ensures PaddedTokens(counts, parts) <= |Concat(parts)| * MaxCount(counts, whole)
  {
    if parts != [] {
      assert Concat(parts) == parts[0] + Concat(parts[1..]);
      PaddingNeverGrows(counts, parts[1..], whole);
      var a, b := MaxCount(counts, parts[0]), MaxCount(counts, whole);
      if a != 0 {
        var x :| x in parts[0] && CountAt(counts, x) == a;
        assert x in Concat(parts);
      }
      MulMonotone(|parts[0]|, |parts[0]|, a, b);
      Distribute(|parts[0]|, |Concat(parts[1..])|, b);
    }
  }

  /** The partitions an M4 cell runs never pad more than the fixed batch of all 32 items. */
  lemma M4PaddingNeverGrows(counts: seq<int>, partitions: seq<seq<int>>)
    requires GreedyTokenPartitions(counts) == Ok(Some(partitions))
    ensures PaddedTokens(counts, partitions) <= PaddedCost(counts, Indices(|counts|))
  {
    var budget := EXPECTED_BATCH_SIZE * P95(counts);
    TokenPartitionsPack(counts, budget);
    PaddingNeverGrows(counts, partitions, Indices(|counts|));
  }

  lemma Distribute(a: int, b: int, c: int)
    ensures (a + b) * c == a * c + b * c
  {
  }

  // ---------------------------------------------------------------- encoding

  /** One call of the model on a batch: a pointwise encoder, one vector per text. */
  function EncodeBatch<T, V>(encoder: T -> V, batch: seq<T>): seq<V> {
    seq(|batch|, i requires 0 <= i < |batch| => encoder(batch[i]))
  }

  /** `_encode`: encode partition by partition, file each vector under its index, reassemble. */
  method EncodePartitions<T, V>(encoder: T -> V, texts: seq<T>, partitions: seq<seq<int>>)
    returns (vectors: seq<V>)
    requires Concat(partitions) == Indices(|texts|)
    ensures vectors == EncodeBatch(encoder, texts)
  {
    var byIndex: map<int, V> := map[];
    assert partitions[..0] == [];
    for p := 0 to |partitions|
      invariant forall i | i in Concat(partitions[..p]) :: i in byIndex
      invariant Filed(encoder, texts, byIndex)
    {
      var partition := partitions[p];
      assert partitions[..p + 1] == partitions[..p] + [partition];
      ConcatAppend(partitions[..p], partition);
      PartMembers(partitions, p);
      assert forall k | 0 <= k < |partition| :: partition[k] in partition;
      assert forall i | i in Indices(|texts|) :: 0 <= i < |texts|;
      var batch := seq(|partition|, k requires 0 <= k < |partition| => texts[partition[k]]);
      var encoded := EncodeBatch(encoder, batch);
      for k := 0 to |partition|
        invariant forall i | i in Concat(partitions[..p]) :: i in byIndex
        invariant forall j | 0 <= j < k :: partition[j] in byIndex
        invariant Filed(encoder, texts, byIndex)
      {
        byIndex := byIndex[partition[k] := encoded[k]];
      }
    }
    assert partitions[..|partitions|] == partitions;
    forall i | 0 <= i < |texts|
      ensures i in byIndex
    {
      assert Indices(|texts|)[i] == i;
      assert i in Indices(|texts|);
    }
    vectors := seq(|texts|, i requires 0 <= i < |texts| && i in byIndex => byIndex[i]);
  }

  ghost predicate Filed<T, V>(encoder: T -> V, texts: seq<T>, byIndex: map<int, V>) {
    forall i | i in byIndex :: 0 <= i < |texts| && byIndex[i] == encoder(texts[i])
  }

  lemma {:induction false} PartMembers<T>(parts: seq<seq<T>>, p: nat)
    requires p < |parts|
    ensures forall x | x in parts[p] :: x in Concat(parts)
  {
    if p > 0 {
      PartMembers(parts[1..], p - 1);
    }
  }

  /**
   An M4 cell returns the vectors of the fixed batch, in the same order; it is refused exactly when the
   counts are not 32 positive ones or one sequence alone exceeds the budget.
   */
  method EncodeWorkload<T, V>(encoder: T -> V, texts: seq<T>, counts: seq<int>, m4Partitions: bool)
    returns (vectors: Result<seq<V>, TokenError>)
    requires |texts| == EXPECTED_BATCH_SIZE
    ensures vectors.Ok? ==> vectors.value == EncodeBatch(encoder, texts)
    ensures vectors.Err? <==>
              m4Partitions && (|counts| != MAX_ITEMS || (exists c | c in counts :: c <= 0)
                               || exists c | c in counts :: c > EXPECTED_BATCH_SIZE * P95(counts))
  {
    var partitions: seq<seq<int>> := [Indices(EXPECTED_BATCH_SIZE)];
    if m4Partitions {
      var result := PartitionFrozenWorkload(counts);
      if result.Err? {
        return Err(result.error);
      }
      if result.value.None? {
        return Err(SequenceExceedsBudget);
      }
      partitions := result.value.value;
      TokenPartitionsPack(counts, EXPECTED_BATCH_SIZE * P95(counts));
    } else {
      assert partitions[1..] == [];
    }
    var all := EncodePartitions(encoder, texts, partitions);
    return Ok(all);
  }
}
