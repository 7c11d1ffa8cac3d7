/**
 In-order packing: cut a list into consecutive batches, closing the open batch only when the next
 item no longer fits. The token partitions and the upload batches are both instances.
 */
module Packing {
  import opened Basics

  /** A packing of `items`: non-empty fitting batches that flatten back to the items in order. */
  ghost predicate Packs<T>(fits: seq<T> -> bool, batches: seq<seq<T>>, items: seq<T>) {
    && Concat(batches) == items
    && forall i | 0 <= i < |batches| :: batches[i] != [] && fits(batches[i])
  }

  /** Every consecutive part of a fitting batch fits. */
  ghost predicate SliceClosed<T(!new)>(fits: seq<T> -> bool) {
    forall s: seq<T>, i: int, j: int :: 0 <= i <= j <= |s| && fits(s) ==> fits(s[i..j])
  }

  /** The packing produced from an open batch `current` and the items still to come. */
  function Greedy<T>(fits: seq<T> -> bool, current: seq<T>, rest: seq<T>): seq<seq<T>>
    decreases |rest|
  {
    if rest == [] then
      (if current == [] then [] else [current])
    else if current != [] && !fits(current + [rest[0]]) then
      [current] + Greedy(fits, [rest[0]], rest[1..])
    else
      Greedy(fits, current + [rest[0]], rest[1..])
  }

  lemma {:induction false} GreedyPacks<T>(fits: seq<T> -> bool, current: seq<T>, rest: seq<T>)
    requires current != [] ==> fits(current)
    requires forall x | x in rest :: fits([x])
    ensures Packs(fits, Greedy(fits, current, rest), current + rest)
    decreases |rest|
  {
    if rest == [] {
      assert current + rest == current;
      if current != [] {
        assert [current][1..] == [];
      }
    } else if current != [] && !fits(current + [rest[0]]) {
      GreedyPacks(fits, [rest[0]], rest[1..]);
      var tail := Greedy(fits, [rest[0]], rest[1..]);
      assert ([current] + tail)[1..] == tail;
      assert [rest[0]] + rest[1..] == rest;
    } else {
      assert current == [] ==> current + [rest[0]] == [rest[0]];
      GreedyPacks(fits, current + [rest[0]], rest[1..]);
      assert (current + [rest[0]]) + rest[1..] == current + rest;
    }
  }

  /**
   The greedy packing stays ahead of every other: an open batch that starts `skip` items into what
   `other` packs still needs no more batches than `other` has.
   */
  lemma {:induction false} GreedyStaysAhead<T(!new)>(fits: seq<T> -> bool, current: seq<T>, rest: seq<T>,
                                                  other: seq<seq<T>>, items: seq<T>, skip: nat)
    requires SliceClosed(fits)
    requires Packs(fits, other, items)
    requires skip <= |items| && current + rest == items[skip..]
    ensures |Greedy(fits, current, rest)| <= |other|
    decreases |rest|, |other|
  {
    if other == [] {
      assert items == [];
    } else if |other[0]| <= skip {
      PacksTail(fits, other, items);
      assert items[|other[0]|..][skip - |other[0]|..] == items[skip..];
      GreedyStaysAhead(fits, current, rest, other[1..], items[|other[0]|..], skip - |other[0]|);
    } else if rest == [] {
    } else if current != [] && !fits(current + [rest[0]]) {
      // The open batch with one more item is no slice of other[0], so it reaches the end of it.
      PacksTail(fits, other, items);
      if skip + |current| < |other[0]| {
        SliceOfFirstFits(fits, current, rest, other, items, skip);
      }
      assert [rest[0]] + rest[1..] == rest == items[skip + |current|..] by {
        assert rest == (current + rest)[|current|..];
      }
      assert items[|other[0]|..][skip + |current| - |other[0]|..] == items[skip + |current|..];
      GreedyStaysAhead(fits, [rest[0]], rest[1..], other[1..], items[|other[0]|..],
                       skip + |current| - |other[0]|);
    } else {
      assert (current + [rest[0]]) + rest[1..] == current + rest;
      GreedyStaysAhead(fits, current + [rest[0]], rest[1..], other, items, skip);
    }
  }

  lemma SliceOfFirstFits<T(!new)>(fits: seq<T> -> bool, current: seq<T>, rest: seq<T>,
                                  other: seq<seq<T>>, items: seq<T>, skip: nat)
    requires SliceClosed(fits)
    requires Packs(fits, other, items) && other != []
    requires skip + |current| < |other[0]| && skip <= |items| && current + rest == items[skip..] && rest != []
    ensures fits(current + [rest[0]])
  {
    PacksTail(fits, other, items);
    assert current + [rest[0]] == (current + rest)[..|current| + 1];
    assert current + [rest[0]] == other[0][skip..skip + |current| + 1];
  }

  lemma PacksTail<T>(fits: seq<T> -> bool, batches: seq<seq<T>>, items: seq<T>)
    requires Packs(fits, batches, items) && batches != []
    ensures |batches[0]| <= |items| && items[..|batches[0]|] == batches[0]
    ensures Packs(fits, batches[1..], items[|batches[0]|..])
  {
    assert items == batches[0] + Concat(batches[1..]);
  }

  /** No packing of the items, however it was found, has fewer batches than the greedy one. */
  lemma GreedyOptimal<T(!new)>(fits: seq<T> -> bool, items: seq<T>, other: seq<seq<T>>)
    requires SliceClosed(fits)
    requires Packs(fits, other, items)
    ensures Packs(fits, Greedy(fits, [], items), items)
    ensures |Greedy(fits, [], items)| <= |other|
  {
    assert [] + items == items == items[0..];
    GreedyStaysAhead(fits, [], items, other, items, 0);
    forall x | x in items
      ensures fits([x])
    {
      SingletonsFit(fits, other, items, x);
    }
    GreedyPacks(fits, [], items);
  }

  lemma {:induction false} SingletonsFit<T(!new)>(fits: seq<T> -> bool, batches: seq<seq<T>>, items: seq<T>, x: T)
    requires SliceClosed(fits)
    requires Packs(fits, batches, items) && x in items
    ensures fits([x])
    decreases |batches|
  {
    assert batches != [];
    PacksTail(fits, batches, items);
    if x in batches[0] {
      var k :| 0 <= k < |batches[0]| && batches[0][k] == x;
      assert batches[0][k..k + 1] == [x];
    } else {
      assert items == items[..|batches[0]|] + items[|batches[0]|..];
      SingletonsFit(fits, batches[1..], items[|batches[0]|..], x);
    }
  }
}
