/** Disk accounting over possibly nested roots, and the running extremes of its samples. */
module DiskUsage {
  import opened Basics
  import opened Sorting

  /** A resolved path, by its parts. */
  type Path = seq<string>

  datatype File = File(path: Path, size: nat)

  predicate IsUnder(path: Path, parent: Path) {
    parent <= path
  }

  // ---------------------------------------------------------------- selecting roots

  predicate Shorter(a: Path, b: Path) {
    |a| <= |b|
  }

  predicate UnderAny(path: Path, roots: seq<Path>) {
    exists r | r in roots :: IsUnder(path, r)
  }

  ghost predicate PairwiseNonNested(roots: seq<Path>) {
    forall i, j | 0 <= i < |roots| && 0 <= j < |roots| && i != j :: !IsUnder(roots[i], roots[j])
  }

  /** `_non_nested_roots`: by rising depth, keep a root unless a kept one already contains it. */
  method NonNestedRoots(roots: seq<Path>) returns (selected: seq<Path>)
    ensures forall r | r in selected :: r in roots
    ensures PairwiseNonNested(selected)
    ensures forall r | r in roots :: UnderAny(r, selected)
  {
    var sorted := Sort(Shorter, roots);
    SortMembers(Shorter, roots);
    SortOrdered(Shorter, roots);
    selected := [];
    for i := 0 to |sorted|
      invariant forall r | r in selected :: r in sorted[..i]
      invariant PairwiseNonNested(selected)
      invariant forall r | r in sorted[..i] :: UnderAny(r, selected)
    {
      var path := sorted[i];
      assert sorted[..i + 1] == sorted[..i] + [path];
      if !UnderAny(path, selected) {
        NoneBelow(sorted, i, selected);
        KeepNonNested(selected, path);
        forall r | r in sorted[..i + 1]
          ensures UnderAny(r, selected + [path])
        {
          if r == path {
            assert path in selected + [path];
          } else {
            StillUnder(r, selected, path);
          }
        }
        selected := selected + [path];
      }
    }
    assert sorted[..|sorted|] == sorted;
    forall r
      ensures r in sorted <==> r in roots
    {
      SameMembers(sorted, roots, r);
    }
  }

  lemma StillUnder(path: Path, roots: seq<Path>, more: Path)
    requires UnderAny(path, roots)
    ensures UnderAny(path, roots + [more])
  {
    var r :| r in roots && IsUnder(path, r);
    assert r in roots + [more];
  }

  lemma DeeperOrEqual(path: Path, parent: Path)
    requires Shorter(path, parent)
    ensures IsUnder(path, parent) ==> path == parent
  {
  }

  /** A kept root is no deeper than the next candidate, so it cannot lie strictly below it. */
  lemma NoneBelow(sorted: seq<Path>, i: nat, selected: seq<Path>)
    requires i < |sorted| && Ordered(Shorter, sorted)
    requires forall r | r in selected :: r in sorted[..i]
    requires !UnderAny(sorted[i], selected)
    ensures forall r | r in selected :: !IsUnder(r, sorted[i])
  {
    forall r | r in selected
      ensures !IsUnder(r, sorted[i])
    {
      var k :| 0 <= k < i && sorted[k] == r;
      assert Shorter(sorted[k], sorted[i]);
      DeeperOrEqual(r, sorted[i]);
    }
  }

  lemma KeepNonNested(selected: seq<Path>, path: Path)
    requires PairwiseNonNested(selected) && !UnderAny(path, selected)
    requires forall r | r in selected :: !IsUnder(r, path)
    ensures PairwiseNonNested(selected + [path])
  {
    var kept := selected + [path];
    forall i, j | 0 <= i < |kept| && 0 <= j < |kept| && i != j
      ensures !IsUnder(kept[i], kept[j])
    {
      if j < |selected| {
        assert kept[j] in selected;
      }
      if i < |selected| {
        assert kept[i] in selected;
      }
    }
  }

  // ---------------------------------------------------------------- sizes

  /** `directory_size`: every file below the root. */
  function DirectorySize(files: seq<File>, root: Path): nat {
    if files == [] then 0
    else (if IsUnder(files[0].path, root) then files[0].size else 0) + DirectorySize(files[1..], root)
  }

  /** The aggregate: the sum over the selected roots. */
  function SizeOverRoots(files: seq<File>, roots: seq<Path>): nat {
    if roots == [] then 0 else DirectorySize(files, roots[0]) + SizeOverRoots(files, roots[1..])
  }

  /** Every file below any of the roots, once. */
  function SizeOfUnion(files: seq<File>, roots: seq<Path>): nat {
    if files == [] then 0
    else (if UnderAny(files[0].path, roots) then files[0].size else 0) + SizeOfUnion(files[1..], roots)
  }

  /** How many of the roots contain the path. */
  function Containing(path: Path, roots: seq<Path>): nat {
    if roots == [] then 0 else (if IsUnder(path, roots[0]) then 1 else 0) + Containing(path, roots[1..])
  }

  lemma TailNonNested(roots: seq<Path>)
    requires roots != [] && PairwiseNonNested(roots)
    ensures PairwiseNonNested(roots[1..])
    ensures forall r | r in roots[1..] :: !IsUnder(r, roots[0]) && !IsUnder(roots[0], r)
  {
    var tail := roots[1..];
    forall i, j | 0 <= i < |tail| && 0 <= j < |tail| && i != j
      ensures !IsUnder(tail[i], tail[j])
    {
      assert tail[i] == roots[i + 1] && tail[j] == roots[j + 1];
    }
    forall r | r in tail
      ensures !IsUnder(r, roots[0]) && !IsUnder(roots[0], r)
    {
      var i :| 0 <= i < |tail| && tail[i] == r;
      assert roots[i + 1] == r;
    }
  }

  /** Two roots that contain one path are nested in each other. */
  lemma CommonPathNests(path: Path, a: Path, b: Path)
    requires IsUnder(path, a) && IsUnder(path, b)
    ensures IsUnder(a, b) || IsUnder(b, a)
  {
    if |a| <= |b| {
      assert b[..|a|] == path[..|b|][..|a|];
    } else {
      assert a[..|b|] == path[..|a|][..|b|];
    }
  }

  lemma {:induction false} ContainedOnce(path: Path, roots: seq<Path>)
    requires PairwiseNonNested(roots)
    ensures Containing(path, roots) == if UnderAny(path, roots) then 1 else 0
  {
    if roots != [] {
      TailNonNested(roots);
      ContainedOnce(path, roots[1..]);
      assert forall r :: r in roots <==> r == roots[0] || r in roots[1..];
      if IsUnder(path, roots[0]) && UnderAny(path, roots[1..]) {
        var r :| r in roots[1..] && IsUnder(path, r);
        CommonPathNests(path, roots[0], r);
      }
    }
  }

  lemma {:induction false} SizeByFile(file: File, files: seq<File>, roots: seq<Path>)
    ensures SizeOverRoots([file] + files, roots)
            == Containing(file.path, roots) * file.size + SizeOverRoots(files, roots)
  {
    if roots != [] {
      SizeByFile(file, files, roots[1..]);
      assert ([file] + files)[1..] == files;
      var here := if IsUnder(file.path, roots[0]) then 1 else 0;
      assert Containing(file.path, roots) * file.size
          == here * file.size + Containing(file.path, roots[1..]) * file.size;
    }
  }

  lemma {:induction false} NoFiles(roots: seq<Path>)
    ensures SizeOverRoots([], roots) == 0
  {
    if roots != [] {
      NoFiles(roots[1..]);
    }
  }

  /** Over non-nested roots the aggregate counts every file below any of them exactly once. */
  lemma {:induction false} AggregateCountsOnce(files: seq<File>, roots: seq<Path>)
    requires PairwiseNonNested(roots)
    ensures SizeOverRoots(files, roots) == SizeOfUnion(files, roots)
  {
    if files == [] {
      NoFiles(roots);
    } else {
      AggregateCountsOnce(files[1..], roots);
      SizeByFile(files[0], files[1..], roots);
      ContainedOnce(files[0].path, roots);
      assert files == [files[0]] + files[1..];
    }
  }

  /** What is below any selected root is what is below any root at all. */
  lemma {:induction false} SelectionCovers(files: seq<File>, roots: seq<Path>, selected: seq<Path>)
    requires forall r | r in selected :: r in roots
    requires forall r | r in roots :: UnderAny(r, selected)
    ensures SizeOfUnion(files, selected) == SizeOfUnion(files, roots)
  {
    if files != [] {
      SelectionCovers(files[1..], roots, selected);
      var path := files[0].path;
      if UnderAny(path, roots) {
        var r :| r in roots && IsUnder(path, r);
        var s :| s in selected && IsUnder(r, s);
        assert path[..|s|] == path[..|r|][..|s|];
        assert IsUnder(path, s);
      }
    }
  }

  method AggregateSize(files: seq<File>, roots: seq<Path>) returns (total: nat)
    ensures total == SizeOfUnion(files, roots)
  {
    var selected := NonNestedRoots(roots);
    AggregateCountsOnce(files, selected);
    SelectionCovers(files, roots, selected);
    return SizeOverRoots(files, selected);
  }

  // ---------------------------------------------------------------- samples

  type Sizes = map<string, int>

  /** The least of the readings that succeeded. */
  function LeastFree(readings: seq<Option<int>>): Option<int> {
    if readings == [] then None
    else
      var earlier, last := LeastFree(readings[..|readings| - 1]), readings[|readings| - 1];
      if last.None? then earlier
      else if earlier.None? || last.value < earlier.value then last
      else earlier
  }

  function LastFree(readings: seq<Option<int>>): Option<int> {
    if readings == [] then None
    else if readings[|readings| - 1].Some? then readings[|readings| - 1]
    else LastFree(readings[..|readings| - 1])
  }

  lemma {:induction false} LeastFreeIsLeast(readings: seq<Option<int>>)
    ensures LeastFree(readings).None? <==> forall r | r in readings :: r.None?
    ensures LeastFree(readings).Some? ==> LeastFree(readings) in readings
    ensures forall r | r in readings && r.Some? :: LeastFree(readings).Some? && LeastFree(readings).value <= r.value
    ensures LastFree(readings).Some? <==> LeastFree(readings).Some?
    ensures LastFree(readings).Some? ==> LastFree(readings) in readings
  {
    if readings != [] {
      var rest, last := readings[..|readings| - 1], readings[|readings| - 1];
      LeastFreeIsLeast(rest);
      assert forall r :: r in readings <==> r in rest || r == last;
    }
  }

  function SizeAt(sizes: Sizes, name: string): int {
    if name in sizes then sizes[name] else 0
  }

  /** The greatest sample of one root. */
  function PeakOf(history: seq<Sizes>, name: string): int
    requires history != []
  {
    var last := SizeAt(history[|history| - 1], name);
    if |history| == 1 then last else Max(PeakOf(history[..|history| - 1], name), last)
  }

  lemma {:induction false} PeakIsGreatest(history: seq<Sizes>, name: string)
    requires history != []
    ensures forall s | s in history :: SizeAt(s, name) <= PeakOf(history, name)
    ensures exists s | s in history :: SizeAt(s, name) == PeakOf(history, name)
  {
    var rest, last := history[..|history| - 1], history[|history| - 1];
    assert last in history;
    if rest != [] {
      PeakIsGreatest(rest, name);
      assert forall s :: s in history <==> s in rest || s == last;
    }
  }

  /** `max(self.peak.get(key, 0), value)` for every sampled key. */
  function Raised(peak: Sizes, observed: Sizes): Sizes {
    map name | name in observed :: Max(if name in peak then peak[name] else 0, observed[name])
  }

  /** The peaks of all roots over a history of samples of the same roots. */
  function Peaks(names: set<string>, history: seq<Sizes>): Sizes
    requires history != []
  {
    map name | name in names :: PeakOf(history, name)
  }

  lemma PeaksRise(names: set<string>, history: seq<Sizes>, observed: Sizes)
    requires history != [] && observed.Keys == names
    ensures Raised(Peaks(names, history), observed) == Peaks(names, history + [observed])
  {
    assert (history + [observed])[..|history|] == history;
  }

  /** `DiskUsageTracker`: the baseline, the running peak, the last sample, and the free space. */
  class DiskUsageTracker {
    const names: set<string>
    var baseline: Sizes
    var peak: Sizes
    var final: Sizes
    var freeBefore: Option<int>
    var minimumFree: Option<int>
    var freeAfter: Option<int>
    ghost var history: seq<Sizes>
    ghost var readings: seq<Option<int>>

    ghost predicate Valid()
      reads this
    {
      && history != [] && |readings| == |history|
      && baseline == history[0] && final == history[|history| - 1]
      && baseline.Keys == names && final.Keys == names && peak == Peaks(names, history)
      && freeBefore == readings[0]
      && minimumFree == LeastFree(readings)
      && freeAfter == LastFree(readings)
    }

    constructor (observed: Sizes, free: Option<int>)
      ensures Valid() && history == [observed] && readings == [free] && names == observed.Keys
    {
      names := observed.Keys;
      baseline, peak, final := observed, observed, observed;
      freeBefore, minimumFree, freeAfter := free, free, free;
      history, readings := [observed], [free];
      new;
      assert readings[..0] == [];
      assert LeastFree([]) == None && LastFree([]) == None;
    }

    /** The measured sizes are always of the same roots. */
    method Sample(observed: Sizes, free: Option<int>)
      requires Valid() && observed.Keys == names
      modifies this
      ensures Valid()
      ensures history == old(history) + [observed] && readings == old(readings) + [free]
      ensures baseline == old(baseline) && freeBefore == old(freeBefore)
    {
      PeaksRise(names, history, observed);
      final := observed;
      peak := Raised(peak, observed);
      if free.Some? {
        minimumFree := if minimumFree.None? || free.value < minimumFree.value then free else minimumFree;
        freeAfter := free;
      }
      history, readings := history + [observed], readings + [free];
      assert readings[..|readings| - 1] == old(readings);
    }

    /** Over any sequence of samples the growth figures and the free space are consistent. */
    lemma Extremes()
      requires Valid()
      ensures forall name | name in names :: peak[name] >= baseline[name] && peak[name] >= final[name]
      ensures freeBefore.Some? ==> minimumFree.Some? && minimumFree.value <= freeBefore.value
      ensures freeAfter.Some? ==> minimumFree.Some? && minimumFree.value <= freeAfter.value
      ensures minimumFree.None? <==> freeAfter.None?
    {
      LeastFreeIsLeast(readings);
      assert readings[0] in readings && baseline in history && final in history;
      forall name | name in names
        ensures peak[name] >= baseline[name] && peak[name] >= final[name]
      {
        PeakIsGreatest(history, name);
        assert SizeAt(baseline, name) <= PeakOf(history, name) && SizeAt(final, name) <= PeakOf(history, name);
      }
    }
  }
}
