/**
 The builder of the replacement acceptance manifest, and its agreement with the independent
 validator. The source files are taken to be as inventoried.
 */
module ManifestBuilder {
  import opened Basics
  import opened Sorting
  import opened Manifest

  datatype Item = Item(path: Path, size: int, media: Media, digest: Digest)

  datatype BuildError =
    | EmptyInventory
    | Unclassifiable
    | ConflictingMedia
    | ConflictingClassification
    | Rejected  // by the builder's own call of the validator

  // ---------------------------------------------------------------- classification

  function Classify(item: Item, checks: map<Digest, TextCheck>): Option<Disposition> {
    if item.size > SizeLimit(item.media) then Some(Oversize)
    else if item.media == Pdf then
      if item.digest !in checks then None
      else
        match checks[item.digest]
        case NoNativeText => Some(OcrRequired)
        case UnknownResult => None
        case _ => Some(Eligible)
    else if item.media == UnsupportedMedia then None
    else Some(Eligible)
  }

  function ReasonFor(d: Disposition): Option<Reason> {
    match d
    case Oversize => Some(SourceTooLarge)
    case OcrRequired => Some(OcrDisabled)
    case _ => None
  }

  predicate Classifiable(items: seq<Item>, checks: map<Digest, TextCheck>) {
    forall k | 0 <= k < |items| :: Classify(items[k], checks).Some?
  }

  /** The row of an item before duplicates are marked. */
  function InitialRow(item: Item, checks: map<Digest, TextCheck>): Row
    requires Classify(item, checks).Some?
  {
    var d := Classify(item, checks).value;
    Row(item.path, item.size, item.media, item.digest, d, ReasonFor(d),
        if item.media == Pdf && item.digest in checks then Some(checks[item.digest]) else None, None)
  }

  // ---------------------------------------------------------------- duplicates

  /** The indices of the items with the given digest, in inventory order. */
  function Holders(items: seq<Item>, digest: Digest, n: nat): seq<int>
    requires n <= |items|
  {
    if n == 0 then []
    else Holders(items, digest, n - 1) + (if items[n - 1].digest == digest then [n - 1] else [])
  }

  function PathAt(items: seq<Item>, k: int): Path {
    if 0 <= k < |items| then items[k].path else ""
  }

  function ByPath(items: seq<Item>): (int, int) -> bool {
    (i, j) => TextLe(PathAt(items, i), PathAt(items, j))
  }

  function SortedHolders(items: seq<Item>, digest: Digest): seq<int> {
    Sort(ByPath(items), Holders(items, digest, |items|))
  }

  /** The item that keeps its eligibility among those with the same bytes. */
  function CanonicalOf(items: seq<Item>, digest: Digest): int {
    var holders := SortedHolders(items, digest);
    if holders == [] then -1 else holders[0]
  }

  function Demoted(row: Row, canonical: Path): Row {
    row.(disposition := Duplicate, reason := Some(DuplicateIdentity), canonical := Some(canonical))
  }

  function FinalRow(items: seq<Item>, checks: map<Digest, TextCheck>, k: nat): Row
    requires k < |items| && Classify(items[k], checks).Some?
  {
    var row := InitialRow(items[k], checks);
    var c := CanonicalOf(items, row.digest);
    if row.disposition == Eligible && c != k then Demoted(row, PathAt(items, c)) else row
  }

  predicate MediaAgree(items: seq<Item>) {
    forall i, j | 0 <= i < |items| && 0 <= j < |items| && items[i].digest == items[j].digest ::
      items[i].media == items[j].media
  }

  predicate ClassesAgree(items: seq<Item>, checks: map<Digest, TextCheck>) {
    forall i, j | 0 <= i < |items| && 0 <= j < |items| && items[i].digest == items[j].digest ::
      Classify(items[i], checks) == Classify(items[j], checks)
  }

  predicate SizesAgree(items: seq<Item>) {
    forall i, j | 0 <= i < |items| && 0 <= j < |items| && items[i].digest == items[j].digest ::
      items[i].size == items[j].size
  }

  /** The builder reaches its own validation call. */
  predicate Buildable(items: seq<Item>, checks: map<Digest, TextCheck>) {
    items != [] && Classifiable(items, checks) && MediaAgree(items) && ClassesAgree(items, checks)
  }

  predicate RowBefore(a: Row, b: Row) {
    TextLe(a.path, b.path)
  }

  function FinalRows(items: seq<Item>, checks: map<Digest, TextCheck>): (r: seq<Row>)
    requires Classifiable(items, checks)
    ensures |r| == |items|
  {
    seq(|items|, k requires 0 <= k < |items| => FinalRow(items, checks, k))
  }

  // ---------------------------------------------------------------- assembly

  /** `next(row for row in sources if its digest is no duplicate's)`. */
  function FirstUnpaired(sources: seq<Source>, paired: set<Digest>): Option<Source> {
    if sources == [] then None
    else if sources[0].digest !in paired then Some(sources[0])
    else FirstUnpaired(sources[1..], paired)
  }

  function FirstDigest(cases: seq<RejectedCase>): Option<Digest> {
    if cases == [] then None else Some(cases[0].digest)
  }

  function DigestOf(source: Option<Source>): Option<Digest> {
    if source.Some? then Some(source.value.digest) else None
  }

  function CaseDigests(cases: seq<RejectedCase>): set<Digest> {
    set c | c in cases :: c.digest
  }

  function Scenarios(cases: RejectionCases, unpaired: Option<Source>): seq<Scenario> {
    var valid, one := DigestOf(unpaired), Indicator(unpaired.Some?);
    [Scenario(OversizedAdmission, |cases.oversized|, None, None, None),
     Scenario(OcrIngestion, |cases.ocrRequired|, None, None, None),
     Scenario(DuplicateRejection, |cases.duplicates|, None, None, None),
     Scenario(MixedOversized, if cases.oversized != [] then one else 0, valid, FirstDigest(cases.oversized), None),
     Scenario(MixedOcr, if cases.ocrRequired != [] then one else 0, valid, FirstDigest(cases.ocrRequired), None),
     Scenario(MixedDuplicate, if cases.duplicates != [] then one else 0, valid, FirstDigest(cases.duplicates), None),
     Scenario(ValidRetry, one, None, None, valid),
     Scenario(GroundedQuery, one, None, None, None)]
  }

  /** Everything the builder derives from its sorted rows. */
  function BodyOf(rows: seq<Row>): Body {
    var eligible := OfDisposition(rows, Eligible);
    var sources := Sort(SourceBefore, SourcesOf(eligible));
    var cases := ExpectedCases(rows);
    Body(
      RULE,
      Counts(|rows|, |Digests(rows)|, |eligible|, |OfDisposition(rows, Oversize)|,
             |OfDisposition(rows, OcrRequired)|, |OfDisposition(rows, Duplicate)|),
      Population(|sources|, multiset(DigestList(eligible)), sources),
      cases,
      Matrix(true, Scenarios(cases, FirstUnpaired(sources, CaseDigests(cases.duplicates))),
             [SafeErrorCode, BoundedReason, TerminalResponse]),
      false, false, rows)
  }

  function Assemble(rows: seq<Row>): Manifest {
    Manifest(true, BodyOf(rows), Some(BodyOf(rows)))
  }

  function BuiltRows(items: seq<Item>, checks: map<Digest, TextCheck>): seq<Row>
    requires Classifiable(items, checks)
  {
    Sort(RowBefore, FinalRows(items, checks))
  }

  // ---------------------------------------------------------------- the builder's loops

  lemma {:induction false} HoldersMembers(items: seq<Item>, digest: Digest, n: nat)
    requires n <= |items|
    ensures forall k :: k in Holders(items, digest, n) <==> 0 <= k < n && items[k].digest == digest
    ensures Distinct(Holders(items, digest, n))
  {
    if n > 0 {
      HoldersMembers(items, digest, n - 1);
      var earlier := Holders(items, digest, n - 1);
      assert forall i | 0 <= i < |earlier| :: earlier[i] in earlier;
    }
  }

  /** The canonical item has the digest, and every holder but it comes later in the sorted list. */
  lemma CanonicalFacts(items: seq<Item>, digest: Digest)
    ensures var sorted := SortedHolders(items, digest);
            && Distinct(sorted)
            && (forall k :: k in sorted <==> 0 <= k < |items| && items[k].digest == digest)
            && (sorted != [] ==> CanonicalOf(items, digest) == sorted[0] && sorted[0] in sorted)
  {
    var holders, sorted := Holders(items, digest, |items|), SortedHolders(items, digest);
    HoldersMembers(items, digest, |items|);
    SortMembers(ByPath(items), holders);
    DistinctSorted(holders, sorted);
    forall k: int
      ensures k in sorted <==> k in holders
    {
      SameMembers(sorted, holders, k);
    }
  }

  ghost predicate GroupedItems(items: seq<Item>, n: nat, byDigest: map<Digest, seq<int>>, order: seq<Digest>)
    requires n <= |items|
  {
    && (forall d :: d in order <==> d in byDigest)
    && (forall k | 0 <= k < n :: items[k].digest in byDigest)
    && (forall d | d in byDigest :: byDigest[d] == Holders(items, d, n) && byDigest[d] != [])
    && Distinct(order)
  }

  lemma {:induction false} NoHolders(items: seq<Item>, digest: Digest, n: nat)
    requires n <= |items| && forall k | 0 <= k < n :: items[k].digest != digest
    ensures Holders(items, digest, n) == []
  {
    if n > 0 {
      NoHolders(items, digest, n - 1);
    }
  }

  lemma GroupItem(items: seq<Item>, n: nat, byDigest: map<Digest, seq<int>>, order: seq<Digest>)
    requires n < |items| && GroupedItems(items, n, byDigest, order)
    ensures var d := items[n].digest;
            GroupedItems(items, n + 1, byDigest[d := (if d in byDigest then byDigest[d] else []) + [n]],
                         if d in byDigest then order else order + [d])
  {
    var d := items[n].digest;
    var grown := byDigest[d := (if d in byDigest then byDigest[d] else []) + [n]];
    var order' := if d in byDigest then order else order + [d];
    if d !in byDigest {
      NoHolders(items, d, n);
    }
    forall x | x in grown
      ensures grown[x] == Holders(items, x, n + 1) && grown[x] != []
    {
      assert x != d ==> Holders(items, x, n + 1) == Holders(items, x, n) + [];
    }
  }

  /** Item `k` is the first with the digest at place `g` of the order; all earlier items' digests come before it. */
  ghost predicate IntroducedAt(items: seq<Item>, order: seq<Digest>, g: nat, k: int) {
    && g < |order| && 0 <= k < |items| && items[k].digest == order[g]
    && forall j | 0 <= j < k :: items[j].digest in order[..g]
  }

  ghost predicate Introduced(items: seq<Item>, order: seq<Digest>, g: nat) {
    exists k :: IntroducedAt(items, order, g, k)
  }

  /** The order is the one in which the digests first occur. */
  ghost predicate ByFirst(items: seq<Item>, order: seq<Digest>) {
    forall g: nat | g < |order| :: Introduced(items, order, g)
  }

  lemma FirstKept(items: seq<Item>, n: nat, order: seq<Digest>)
    requires n < |items| && ByFirst(items, order) && forall k | 0 <= k < n :: items[k].digest in order
    ensures ByFirst(items, order + [items[n].digest])
  {
    var order' := order + [items[n].digest];
    forall g: nat | g < |order'|
      ensures Introduced(items, order', g)
    {
      assert order'[..g] == order[..g];
      if g < |order| {
        assert Introduced(items, order, g);
        var k :| IntroducedAt(items, order, g, k);
        assert IntroducedAt(items, order', g, k);
      } else {
        assert order[..g] == order;
        assert IntroducedAt(items, order', g, n);
      }
    }
  }

  ghost predicate RowsUpTo(items: seq<Item>, checks: map<Digest, TextCheck>, rows: seq<Row>, n: nat) {
    && n <= |items| && |rows| == n
    && forall j | 0 <= j < n :: Classify(items[j], checks).Some? && rows[j] == InitialRow(items[j], checks)
  }

  lemma RowAdded(items: seq<Item>, checks: map<Digest, TextCheck>, rows: seq<Row>, n: nat)
    requires RowsUpTo(items, checks, rows, n) && n < |items| && Classify(items[n], checks).Some?
    ensures RowsUpTo(items, checks, rows + [InitialRow(items[n], checks)], n + 1)
  {
  }

  lemma AllRows(items: seq<Item>, checks: map<Digest, TextCheck>, rows: seq<Row>)
    requires RowsUpTo(items, checks, rows, |items|)
    ensures Classifiable(items, checks) && Marked(items, checks, rows, {})
  {
  }

  /** The first loop: classify every item and group the rows by digest. */
  method ClassifyAll(items: seq<Item>, checks: map<Digest, TextCheck>)
    returns (classified: bool, rows: seq<Row>, byDigest: map<Digest, seq<int>>, order: seq<Digest>)
    ensures classified <==> Classifiable(items, checks)
    ensures classified ==> Marked(items, checks, rows, {})
    ensures classified ==> GroupedItems(items, |items|, byDigest, order) && ByFirst(items, order)
  {
    rows, byDigest, order, classified := [], map[], [], true;
    for k := 0 to |items|
      invariant RowsUpTo(items, checks, rows, k)
      invariant GroupedItems(items, k, byDigest, order) && ByFirst(items, order)
    {
      if Classify(items[k], checks).None? {
        return false, rows, byDigest, order;
      }
      RowAdded(items, checks, rows, k);
      rows := rows + [InitialRow(items[k], checks)];
      GroupItem(items, k, byDigest, order);
      var d := items[k].digest;
      if d !in byDigest {
        FirstKept(items, k, order);
        order := order + [d];
      }
      byDigest := byDigest[d := (if d in byDigest then byDigest[d] else []) + [k]];
    }
    AllRows(items, checks, rows);
  }

  /** Every row whose digest was handled is final, every other one is as classified. */
  ghost predicate Marked(items: seq<Item>, checks: map<Digest, TextCheck>, rows: seq<Row>, handled: set<Digest>)
    requires Classifiable(items, checks)
  {
    && |rows| == |items|
    && forall k | 0 <= k < |items| ::
         rows[k] == if items[k].digest in handled then FinalRow(items, checks, k) else InitialRow(items[k], checks)
  }

  /** The rows of `digest` that come before position `n` of the sorted group are final. */
  ghost predicate Marking(items: seq<Item>, checks: map<Digest, TextCheck>, rows: seq<Row>, handled: set<Digest>,
                          digest: Digest, n: nat)
    requires Classifiable(items, checks)
  {
    && |rows| == |items| && n <= |SortedHolders(items, digest)|
    && forall k | 0 <= k < |items| ::
         rows[k] == if items[k].digest in handled || k in SortedHolders(items, digest)[..n]
                    then FinalRow(items, checks, k) else InitialRow(items[k], checks)
  }

  lemma MarkingStep(items: seq<Item>, checks: map<Digest, TextCheck>, rows: seq<Row>, handled: set<Digest>,
                    digest: Digest, n: nat)
    requires Classifiable(items, checks) && digest !in handled
    requires Marking(items, checks, rows, handled, digest, n)
    requires 1 <= n < |SortedHolders(items, digest)|
    requires forall k | k in SortedHolders(items, digest) && 0 <= k < |items|
               :: Classify(items[k], checks) == Some(Eligible)
    ensures var k := SortedHolders(items, digest)[n];
            0 <= k < |rows|
            && Marking(items, checks,
                       rows[k := Demoted(rows[k], PathAt(items, CanonicalOf(items, digest)))], handled, digest, n + 1)
  {
    var sorted := SortedHolders(items, digest);
    var at := sorted[n];
    CanonicalFacts(items, digest);
    assert at in sorted && sorted[0] in sorted && sorted[0] != at;
    assert sorted[..n + 1] == sorted[..n] + [at];
    assert at !in sorted[..n];
  }

  /** `group` is the non-empty list of all items with the digest. */
  ghost predicate IsGroup(items: seq<Item>, digest: Digest, group: seq<int>) {
    group == Holders(items, digest, |items|) && group != []
  }

  /** Once the group is consistent, demoting all holders but the first finishes it. */
  method MarkDuplicates(items: seq<Item>, checks: map<Digest, TextCheck>, rows: seq<Row>, ghost handled: set<Digest>,
                        digest: Digest, group: seq<int>)
    returns (marked: seq<Row>)
    requires Classifiable(items, checks) && digest !in handled && Marked(items, checks, rows, handled)
    requires IsGroup(items, digest, group)
    requires forall k | k in group && 0 <= k < |items| :: Classify(items[k], checks) == Some(Eligible)
    ensures Marked(items, checks, marked, handled + {digest})
  {
    marked := rows;
    CanonicalFacts(items, digest);
    var sorted := Sort(ByPath(items), group);
    SortMembers(ByPath(items), group);
    assert sorted == SortedHolders(items, digest) && sorted[..1] == [sorted[0]];
    forall k | k in sorted && 0 <= k < |items|
      ensures Classify(items[k], checks) == Some(Eligible)
    {
      SameMembers(sorted, group, k);
    }
    var canonical := PathAt(items, sorted[0]);
    for n := 1 to |sorted|
      invariant Marking(items, checks, marked, handled, digest, n)
    {
      MarkingStep(items, checks, marked, handled, digest, n);
      marked := marked[sorted[n] := Demoted(marked[sorted[n]], canonical)];
    }
    assert sorted[..|sorted|] == sorted;
  }

  predicate GroupMediaAgree(items: seq<Item>, group: seq<int>)
    requires forall k | k in group :: 0 <= k < |items|
  {
    forall i, j | i in group && j in group :: items[i].media == items[j].media
  }

  predicate GroupClassesAgree(items: seq<Item>, checks: map<Digest, TextCheck>, group: seq<int>)
    requires forall k | k in group :: 0 <= k < |items|
  {
    forall i, j | i in group && j in group :: Classify(items[i], checks) == Classify(items[j], checks)
  }

  /** Nothing is demoted in a group that is not eligible. */
  lemma GroupStays(items: seq<Item>, checks: map<Digest, TextCheck>, rows: seq<Row>, handled: set<Digest>,
                   digest: Digest)
    requires Classifiable(items, checks) && Marked(items, checks, rows, handled)
    requires forall k | 0 <= k < |items| && items[k].digest == digest :: Classify(items[k], checks) != Some(Eligible)
    ensures Marked(items, checks, rows, handled + {digest})
  {
  }

  predicate OneMedia(items: seq<Item>, digest: Digest) {
    forall i, j | 0 <= i < |items| && 0 <= j < |items| && items[i].digest == digest && items[j].digest == digest ::
      items[i].media == items[j].media
  }

  predicate OneClass(items: seq<Item>, checks: map<Digest, TextCheck>, digest: Digest) {
    forall i, j | 0 <= i < |items| && 0 <= j < |items| && items[i].digest == digest && items[j].digest == digest ::
      Classify(items[i], checks) == Classify(items[j], checks)
  }

  /** What the items with one digest disagree on, media types first. */
  function Conflict(items: seq<Item>, checks: map<Digest, TextCheck>, digest: Digest): Option<BuildError> {
    if !OneMedia(items, digest) then Some(ConflictingMedia)
    else if !OneClass(items, checks, digest) then Some(ConflictingClassification)
    else None
  }

  /** The conflict of the first digest, in inventory order, that has one. */
  function FirstConflict(items: seq<Item>, checks: map<Digest, TextCheck>, k: nat): Option<BuildError>
    requires k <= |items|
    decreases |items| - k
  {
    if k == |items| then None
    else if Conflict(items, checks, items[k].digest).Some? then Conflict(items, checks, items[k].digest)
    else FirstConflict(items, checks, k + 1)
  }

  lemma {:induction false} FirstConflictIs(items: seq<Item>, checks: map<Digest, TextCheck>, n: nat, k: nat)
    requires n <= k <= |items|
    requires forall j | n <= j < k :: Conflict(items, checks, items[j].digest).None?
    ensures FirstConflict(items, checks, n) == FirstConflict(items, checks, k)
    decreases k - n
  {
    if n < k {
      FirstConflictIs(items, checks, n + 1, k);
    }
  }

  lemma GroupConflict(items: seq<Item>, checks: map<Digest, TextCheck>, digest: Digest, group: seq<int>)
    requires forall k :: k in group <==> 0 <= k < |items| && items[k].digest == digest
    ensures OneMedia(items, digest) <==> GroupMediaAgree(items, group)
    ensures OneClass(items, checks, digest) <==> GroupClassesAgree(items, checks, group)
  {
    if GroupMediaAgree(items, group) {
      forall i, j | 0 <= i < |items| && 0 <= j < |items| && items[i].digest == digest && items[j].digest == digest
        ensures items[i].media == items[j].media
      {
        assert i in group && j in group;
      }
    }
    if GroupClassesAgree(items, checks, group) {
      forall i, j | 0 <= i < |items| && 0 <= j < |items| && items[i].digest == digest && items[j].digest == digest
        ensures Classify(items[i], checks) == Classify(items[j], checks)
      {
        assert i in group && j in group;
      }
    }
  }

  /** One turn of the second loop. */
  method MarkGroup(items: seq<Item>, checks: map<Digest, TextCheck>, rows: seq<Row>, ghost handled: set<Digest>,
                   digest: Digest, group: seq<int>)
    returns (error: Option<BuildError>, marked: seq<Row>)
    requires Classifiable(items, checks) && digest !in handled && Marked(items, checks, rows, handled)
    requires IsGroup(items, digest, group)
    ensures error == Conflict(items, checks, digest)
    ensures error.None? ==> Marked(items, checks, marked, handled + {digest})
  {
    marked := rows;
    HoldersMembers(items, digest, |items|);
    GroupConflict(items, checks, digest, group);
    assert group[0] in group;
    if !GroupMediaAgree(items, group) {
      return Some(ConflictingMedia), marked;
    }
    if !GroupClassesAgree(items, checks, group) {
      return Some(ConflictingClassification), marked;
    }
    error := None;
    if Classify(items[group[0]], checks) == Some(Eligible) {
      marked := MarkDuplicates(items, checks, rows, handled, digest, group);
    } else {
      GroupStays(items, checks, rows, handled, digest);
    }
  }

  lemma {:induction false} NoConflict(items: seq<Item>, checks: map<Digest, TextCheck>, k: nat)
    requires k <= |items|
    ensures FirstConflict(items, checks, k).None? <==>
              forall j | k <= j < |items| :: Conflict(items, checks, items[j].digest).None?
    decreases |items| - k
  {
    if k < |items| {
      NoConflict(items, checks, k + 1);
    }
  }

  /** There is no conflict exactly if equal bytes have equal media types and classes. */
  lemma ConflictFree(items: seq<Item>, checks: map<Digest, TextCheck>)
    ensures FirstConflict(items, checks, 0).None? <==> MediaAgree(items) && ClassesAgree(items, checks)
  {
    NoConflict(items, checks, 0);
    if FirstConflict(items, checks, 0).None? {
      forall i, j | 0 <= i < |items| && 0 <= j < |items| && items[i].digest == items[j].digest
        ensures items[i].media == items[j].media && Classify(items[i], checks) == Classify(items[j], checks)
      {
        assert Conflict(items, checks, items[i].digest).None?;
      }
    }
  }

  /** The first group in conflict is that of the first item in conflict. */
  lemma ConflictFound(items: seq<Item>, checks: map<Digest, TextCheck>, order: seq<Digest>, g: nat)
    requires g < |order| && ByFirst(items, order) && Conflict(items, checks, order[g]).Some?
    requires forall d | d in order[..g] :: Conflict(items, checks, d).None?
    ensures FirstConflict(items, checks, 0) == Conflict(items, checks, order[g])
  {
    assert Introduced(items, order, g);
    var k :| IntroducedAt(items, order, g, k);
    FirstConflictIs(items, checks, 0, k);
  }

  /** When every digest was handled the rows are final. */
  lemma AllMarked(items: seq<Item>, checks: map<Digest, TextCheck>, rows: seq<Row>, handled: set<Digest>)
    requires Classifiable(items, checks) && Marked(items, checks, rows, handled)
    requires forall k | 0 <= k < |items| :: items[k].digest in handled
    requires forall d | d in handled :: Conflict(items, checks, d).None?
    ensures rows == FinalRows(items, checks) && FirstConflict(items, checks, 0).None?
  {
    NoConflict(items, checks, 0);
  }

  /** The digests of the first `g` groups. */
  ghost function Handled(order: seq<Digest>, g: nat): set<Digest>
    requires g <= |order|
  {
    set d | d in order[..g]
  }

  lemma HandledStep(order: seq<Digest>, g: nat)
    requires Distinct(order) && g < |order|
    ensures order[g] !in Handled(order, g) && Handled(order, g + 1) == Handled(order, g) + {order[g]}
  {
    assert order[..g + 1] == order[..g] + [order[g]];
  }

  /** The first `g` groups are free of conflicts, and their rows are final. */
  ghost predicate GroupsMarked(items: seq<Item>, checks: map<Digest, TextCheck>, rows: seq<Row>,
                               order: seq<Digest>, g: nat)
    requires Classifiable(items, checks) && g <= |order|
  {
    && Marked(items, checks, rows, Handled(order, g))
    && forall d | d in Handled(order, g) :: Conflict(items, checks, d).None?
  }

  lemma MarkedStep(items: seq<Item>, checks: map<Digest, TextCheck>, rows: seq<Row>, order: seq<Digest>, g: nat)
    requires Classifiable(items, checks) && Distinct(order) && g < |order|
    requires Marked(items, checks, rows, Handled(order, g) + {order[g]})
    requires Conflict(items, checks, order[g]).None?
    requires forall d | d in Handled(order, g) :: Conflict(items, checks, d).None?
    ensures GroupsMarked(items, checks, rows, order, g + 1)
  {
    HandledStep(order, g);
  }

  /** The second loop: check each group and mark its duplicates. */
  method MarkGroups(items: seq<Item>, checks: map<Digest, TextCheck>, initial: seq<Row>,
                    byDigest: map<Digest, seq<int>>, order: seq<Digest>)
    returns (error: Option<BuildError>, rows: seq<Row>)
    requires Classifiable(items, checks) && GroupedItems(items, |items|, byDigest, order) && ByFirst(items, order)
    requires Marked(items, checks, initial, {})
    ensures error == FirstConflict(items, checks, 0)
    ensures error.None? ==> rows == FinalRows(items, checks)
  {
    rows := initial;
    error := None;
    for g := 0 to |order|
      invariant error.None? && GroupsMarked(items, checks, rows, order, g)
    {
      assert order[g] in order;
      HandledStep(order, g);
      error, rows := MarkGroup(items, checks, rows, Handled(order, g), order[g], byDigest[order[g]]);
      if error.Some? {
        ConflictFound(items, checks, order, g);
        return;
      }
      MarkedStep(items, checks, rows, order, g);
    }
    assert order[..|order|] == order;
    AllMarked(items, checks, rows, Handled(order, |order|));
  }

  /** The first error of the builder before its own call of the validator. */
  function PreparationError(items: seq<Item>, checks: map<Digest, TextCheck>): Option<BuildError> {
    if items == [] then Some(EmptyInventory)
    else if !Classifiable(items, checks) then Some(Unclassifiable)
    else FirstConflict(items, checks, 0)
  }

  lemma BuildableMeans(items: seq<Item>, checks: map<Digest, TextCheck>)
    ensures PreparationError(items, checks).None? <==> Buildable(items, checks)
  {
    ConflictFree(items, checks);
  }

  /** `build_replacement_acceptance_manifest`. */
  method BuildManifest(items: seq<Item>, checks: map<Digest, TextCheck>) returns (r: Result<Manifest, BuildError>)
    ensures PreparationError(items, checks).None? <==> Buildable(items, checks)
    ensures PreparationError(items, checks).Some? ==> r == Err(PreparationError(items, checks).value)
    ensures Buildable(items, checks) ==>
              var built := Assemble(BuiltRows(items, checks));
              r == if Accepted(built) then Ok(built) else Err(Rejected)
  {
    BuildableMeans(items, checks);
    if items == [] {
      return Err(EmptyInventory);
    }
    var classified, initial, byDigest, order := ClassifyAll(items, checks);
    if !classified {
      return Err(Unclassifiable);
    }
    var error, rows := MarkGroups(items, checks, initial, byDigest, order);
    if error.Some? {
      return Err(error.value);
    }
    var manifest := Assemble(Sort(RowBefore, rows));
    var sources := ValidateManifest(manifest);
    if sources.None? {
      return Err(Rejected);
    }
    return Ok(manifest);
  }

  // ---------------------------------------------------------------- builder and validator agree

  /** What `inventory_directory` produces: unique paths, supported media types, real sizes. */
  predicate Inventoried(items: seq<Item>) {
    && (forall i, j | 0 <= i < j < |items| :: items[i].path != items[j].path)
    && (forall k | 0 <= k < |items| :: items[k].size >= 0 && items[k].media != UnsupportedMedia)
  }

  /** `rows` lists the final rows of the items in some order. */
  ghost predicate Lists(items: seq<Item>, checks: map<Digest, TextCheck>, rows: seq<Row>)
    requires Classifiable(items, checks)
  {
    && |rows| == |items|
    && (forall r | r in rows :: exists k :: 0 <= k < |items| && r == FinalRow(items, checks, k))
    && (forall k | 0 <= k < |items| :: FinalRow(items, checks, k) in rows)
    && (forall i, j | 0 <= i < j < |rows| :: rows[i].path != rows[j].path)
  }

  lemma FinalRowKeeps(items: seq<Item>, checks: map<Digest, TextCheck>, k: nat)
    requires k < |items| && Classify(items[k], checks).Some?
    ensures var row, item := FinalRow(items, checks, k), items[k];
            row.path == item.path && row.size == item.size && row.media == item.media && row.digest == item.digest
  {
  }

  lemma BuiltRowsList(items: seq<Item>, checks: map<Digest, TextCheck>)
    requires Classifiable(items, checks) && Inventoried(items)
    ensures Lists(items, checks, BuiltRows(items, checks))
  {
    var finals, rows := FinalRows(items, checks), BuiltRows(items, checks);
    SortMembers(RowBefore, finals);
    forall i, j | 0 <= i < j < |finals|
      ensures finals[i] != finals[j]
    {
      FinalRowKeeps(items, checks, i);
      FinalRowKeeps(items, checks, j);
    }
    DistinctSorted(finals, rows);
    forall r
      ensures r in rows <==> r in finals
    {
      SameMembers(rows, finals, r);
    }
    forall k | 0 <= k < |items|
      ensures FinalRow(items, checks, k) in rows
    {
      assert finals[k] in finals;
    }
    forall i, j | 0 <= i < j < |rows|
      ensures rows[i].path != rows[j].path
    {
      var a := IndexOf(items, checks, rows, rows[i]);
      var b := IndexOf(items, checks, rows, rows[j]);
    }
  }

  /** The item behind a row. */
  lemma IndexOf(items: seq<Item>, checks: map<Digest, TextCheck>, rows: seq<Row>, row: Row) returns (k: nat)
    requires Classifiable(items, checks) && row in rows
    requires forall r | r in rows :: r in FinalRows(items, checks)
    ensures k < |items| && row == FinalRow(items, checks, k)
    ensures row.path == items[k].path && row.digest == items[k].digest
  {
    var i :| 0 <= i < |FinalRows(items, checks)| && FinalRows(items, checks)[i] == row;
    k := i;
    FinalRowKeeps(items, checks, k);
  }

  /** The item behind a listed row. */
  lemma ItemOf(items: seq<Item>, checks: map<Digest, TextCheck>, rows: seq<Row>, row: Row) returns (k: nat)
    requires Classifiable(items, checks) && Lists(items, checks, rows) && row in rows
    ensures k < |items| && row == FinalRow(items, checks, k)
    ensures row.path == items[k].path && row.digest == items[k].digest
    ensures row.media == items[k].media && row.size == items[k].size
  {
    k :| 0 <= k < |items| && row == FinalRow(items, checks, k);
    FinalRowKeeps(items, checks, k);
  }

  lemma FinalRowOk(items: seq<Item>, checks: map<Digest, TextCheck>, k: nat)
    requires Classifiable(items, checks) && Inventoried(items) && k < |items|
    ensures RowOk(FinalRow(items, checks, k))
  {
  }

  /** The dispositions a final row can have, by the class of its item. */
  lemma FinalDisposition(items: seq<Item>, checks: map<Digest, TextCheck>, k: nat)
    requires Classifiable(items, checks) && k < |items|
    ensures var row, kind := FinalRow(items, checks, k), Classify(items[k], checks).value;
            var c := CanonicalOf(items, items[k].digest);
            && kind in {Eligible, Oversize, OcrRequired}
            && (kind != Eligible ==> row.disposition == kind)
            && (kind == Eligible && k == c ==> row.disposition == Eligible)
            && (kind == Eligible && k != c ==> row.disposition == Duplicate && row.reason == Some(DuplicateIdentity)
                                                && row.canonical == Some(PathAt(items, c)))
  {
  }

  lemma CanonicalHolds(items: seq<Item>, k: nat)
    requires k < |items|
    ensures var c := CanonicalOf(items, items[k].digest);
            0 <= c < |items| && items[c].digest == items[k].digest
  {
    CanonicalFacts(items, items[k].digest);
    assert k in SortedHolders(items, items[k].digest);
  }

  lemma OnlyOne<T(!new)>(s: seq<T>, x: T)
    requires Distinct(s) && x in s && forall y | y in s :: y == x
    ensures s == [x]
  {
    assert |s| > 1 ==> s[0] != s[1];
    forall i | 0 <= i < |s|
      ensures s[i] == x
    {
      assert s[i] in s;
    }
    assert |s| == 1 && s[0] == x;
  }

  /** The rows of an eligible identity: its canonical row, and duplicates that name it. */
  lemma EligibleGroupOk(items: seq<Item>, checks: map<Digest, TextCheck>, group: seq<Row>, c: nat)
    requires Classifiable(items, checks) && c < |items| && c == CanonicalOf(items, items[c].digest)
    requires Classify(items[c], checks) == Some(Eligible)
    requires forall r | r in group :: exists k ::
               0 <= k < |items| && r == FinalRow(items, checks, k) && items[k].digest == items[c].digest
               && Classify(items[k], checks) == Some(Eligible)
    requires FinalRow(items, checks, c) in group && Distinct(group) && SameIdentity(group)
    ensures GroupOk(group)
    ensures forall r | r in group && r.disposition == Eligible :: r == FinalRow(items, checks, c)
  {
    var canonical := FinalRow(items, checks, c);
    forall r | r in group
      ensures r == canonical
              || (r.disposition == Duplicate && r.canonical == Some(canonical.path)
                  && r.reason == Some(DuplicateIdentity))
    {
      var k :| 0 <= k < |items| && r == FinalRow(items, checks, k) && items[k].digest == items[c].digest
               && Classify(items[k], checks) == Some(Eligible);
      FinalDisposition(items, checks, k);
      FinalRowKeeps(items, checks, c);
    }
    FinalDisposition(items, checks, c);
    CanonicalAlone(group, canonical);
  }

  /** A group of one eligible row and duplicates that name it passes the validator. */
  lemma CanonicalAlone(group: seq<Row>, canonical: Row)
    requires canonical in group && canonical.disposition == Eligible && Distinct(group) && SameIdentity(group)
    requires forall r | r in group ::
               r == canonical || (r.disposition == Duplicate && r.canonical == Some(canonical.path)
                                  && r.reason == Some(DuplicateIdentity))
    ensures GroupOk(group)
  {
    var eligible := OfDisposition(group, Eligible);
    OfDispositionMembers(group, Eligible);
    OfDispositionDistinct(group, Eligible);
    OnlyOne(eligible, canonical);
    if |group| == 1 {
      assert group == [canonical];
    } else {
      assert group[0] in group && group[1] in group && group[0] != group[1];
    }
  }

  lemma OtherGroupOk(group: seq<Row>, d: Disposition)
    requires SameIdentity(group) && d != Duplicate && d != Eligible
    requires forall r | r in group :: r.disposition == d
    ensures GroupOk(group)
  {
  }

  lemma RowsDistinct(rows: seq<Row>)
    requires forall i, j | 0 <= i < j < |rows| :: rows[i].path != rows[j].path
    ensures Distinct(rows)
  {
  }

  lemma GroupSizes(items: seq<Item>, checks: map<Digest, TextCheck>, rows: seq<Row>, digest: Digest)
    requires Buildable(items, checks) && Lists(items, checks, rows) && SizesAgree(items)
    ensures SameIdentity(OfDigest(rows, digest))
  {
    var group := OfDigest(rows, digest);
    OfDigestMembers(rows, digest);
    forall r, r' | r in group && r' in group
      ensures r.media == r'.media && r.size == r'.size
    {
      var i := ItemOf(items, checks, rows, r);
      var j := ItemOf(items, checks, rows, r');
    }
  }

  /** The rows of the digest of an eligible item. */
  lemma EligibleGroup(items: seq<Item>, checks: map<Digest, TextCheck>, rows: seq<Row>, k: nat) returns (c: nat)
    requires Buildable(items, checks) && Lists(items, checks, rows) && SizesAgree(items)
    requires k < |items| && Classify(items[k], checks) == Some(Eligible)
    ensures c < |items| && c == CanonicalOf(items, items[k].digest)
    ensures GroupOk(OfDigest(rows, items[k].digest))
    ensures forall r | r in OfDigest(rows, items[k].digest) && r.disposition == Eligible
              :: r == FinalRow(items, checks, c)
  {
    var group := OfDigest(rows, items[k].digest);
    CanonicalHolds(items, k);
    c := CanonicalOf(items, items[k].digest);
    OfDigestMembers(rows, items[k].digest);
    RowsDistinct(rows);
    OfDigestDistinct(rows, items[k].digest);
    GroupSizes(items, checks, rows, items[k].digest);
    FinalRowKeeps(items, checks, c);
    assert FinalRow(items, checks, c) in rows;
    forall r | r in group
      ensures exists j :: 0 <= j < |items| && r == FinalRow(items, checks, j) && items[j].digest == items[c].digest
                          && Classify(items[j], checks) == Some(Eligible)
    {
      var j := ItemOf(items, checks, rows, r);
      assert Classify(items[j], checks) == Classify(items[k], checks);
    }
    EligibleGroupOk(items, checks, group, c);
  }

  lemma RejectedGroup(items: seq<Item>, checks: map<Digest, TextCheck>, rows: seq<Row>, k: nat)
    requires Buildable(items, checks) && Lists(items, checks, rows) && SizesAgree(items)
    requires k < |items| && Classify(items[k], checks) != Some(Eligible)
    ensures GroupOk(OfDigest(rows, items[k].digest))
  {
    var group := OfDigest(rows, items[k].digest);
    OfDigestMembers(rows, items[k].digest);
    GroupSizes(items, checks, rows, items[k].digest);
    var kind := Classify(items[k], checks).value;
    forall r | r in group
      ensures r.disposition == kind
    {
      var j := ItemOf(items, checks, rows, r);
      FinalDisposition(items, checks, j);
      assert Classify(items[j], checks) == Classify(items[k], checks);
    }
    FinalDisposition(items, checks, k);
    OtherGroupOk(group, kind);
  }

  lemma GroupsPass(items: seq<Item>, checks: map<Digest, TextCheck>, rows: seq<Row>)
    requires Buildable(items, checks) && Lists(items, checks, rows) && SizesAgree(items)
    ensures GroupsOk(rows)
  {
    forall d | d in Digests(rows)
      ensures GroupOk(OfDigest(rows, d))
    {
      var r :| r in rows && r.digest == d;
      var k := ItemOf(items, checks, rows, r);
      if Classify(items[k], checks) == Some(Eligible) {
        var c := EligibleGroup(items, checks, rows, k);
      } else {
        RejectedGroup(items, checks, rows, k);
      }
    }
  }

  lemma EligibleUnique(items: seq<Item>, checks: map<Digest, TextCheck>, rows: seq<Row>, a: Row, b: Row)
    requires Buildable(items, checks) && Lists(items, checks, rows) && SizesAgree(items)
    requires a in rows && b in rows && a.digest == b.digest && a.disposition == Eligible && b.disposition == Eligible
    ensures a == b
  {
    var k := ItemOf(items, checks, rows, a);
    FinalDisposition(items, checks, k);
    var c := EligibleGroup(items, checks, rows, k);
    OfDigestMembers(rows, a.digest);
    assert a in OfDigest(rows, a.digest) && b in OfDigest(rows, a.digest);
  }

  lemma EligibleDigestsDistinct(items: seq<Item>, checks: map<Digest, TextCheck>, rows: seq<Row>)
    requires Buildable(items, checks) && Lists(items, checks, rows) && SizesAgree(items)
    ensures DigestsDistinct(OfDisposition(rows, Eligible))
  {
    var eligible := OfDisposition(rows, Eligible);
    RowsDistinct(rows);
    OfDispositionDistinct(rows, Eligible);
    OfDispositionMembers(rows, Eligible);
    forall i, j | 0 <= i < j < |eligible|
      ensures eligible[i].digest != eligible[j].digest
    {
      assert eligible[i] in eligible && eligible[j] in eligible;
      if eligible[i].digest == eligible[j].digest {
        EligibleUnique(items, checks, rows, eligible[i], eligible[j]);
      }
    }
  }

  lemma {:induction false} FirstUnpairedExists(sources: seq<Source>, paired: set<Digest>)
    ensures FirstUnpaired(sources, paired).Some? <==> exists s | s in sources :: s.digest !in paired
    ensures FirstUnpaired(sources, paired).Some? ==>
              FirstUnpaired(sources, paired).value in sources
              && FirstUnpaired(sources, paired).value.digest !in paired
  {
    if sources != [] {
      FirstUnpairedExists(sources[1..], paired);
      assert forall s :: s in sources <==> s == sources[0] || s in sources[1..];
    }
  }

  lemma CaseDigestsAre(rows: seq<Row>)
    ensures CaseDigests(CasesOf(rows)) == Digests(rows)
  {
    forall d
      ensures d in CaseDigests(CasesOf(rows)) <==> d in Digests(rows)
    {
      if d in CaseDigests(CasesOf(rows)) {
        var i :| 0 <= i < |rows| && CasesOf(rows)[i].digest == d;
        assert rows[i] in rows;
      }
      if d in Digests(rows) {
        var i :| 0 <= i < |rows| && rows[i].digest == d;
        assert CasesOf(rows)[i] in CasesOf(rows);
      }
    }
  }

  /** The source that the builder picks for its mixed scenarios. */
  function Unpaired(rows: seq<Row>): Option<Source> {
    FirstUnpaired(Sort(SourceBefore, SourcesOf(OfDisposition(rows, Eligible))),
                  CaseDigests(CasesOf(OfDisposition(rows, Duplicate))))
  }

  lemma SortedSourceMembers(rows: seq<Row>, s: Source)
    ensures s in Sort(SourceBefore, SourcesOf(rows)) <==> exists r | r in rows :: SourceOf(r) == s
  {
    var sources := SourcesOf(rows);
    SortMembers(SourceBefore, sources);
    SameMembers(Sort(SourceBefore, sources), sources, s);
    if r :| r in rows && SourceOf(r) == s {
      var i :| 0 <= i < |rows| && rows[i] == r;
      assert sources[i] == s;
    }
  }

  /** Builder and validator look for the unpaired source in different lists but find one alike. */
  lemma UnpairedAgrees(rows: seq<Row>)
    ensures Unpaired(rows).Some? <==> HasUnpaired(rows)
    ensures Unpaired(rows).Some? ==>
              Unpaired(rows).value.digest !in Digests(OfDisposition(rows, Duplicate))
              && exists r | r in rows :: r.disposition == Eligible && r.digest == Unpaired(rows).value.digest
  {
    var eligible, paired := OfDisposition(rows, Eligible), CaseDigests(CasesOf(OfDisposition(rows, Duplicate)));
    var sources := Sort(SourceBefore, SourcesOf(eligible));
    FirstUnpairedExists(sources, paired);
    CaseDigestsAre(OfDisposition(rows, Duplicate));
    OfDispositionMembers(rows, Eligible);
    if Unpaired(rows).Some? {
      SortedSourceMembers(eligible, Unpaired(rows).value);
    }
    if HasUnpaired(rows) {
      var r :| r in rows && r.disposition == Eligible && r.digest !in Digests(OfDisposition(rows, Duplicate));
      assert r in eligible;
      SortedSourceMembers(eligible, SourceOf(r));
      assert SourceOf(r) in sources && SourceOf(r).digest !in paired;
    }
  }

  /** The eight scenarios of the builder's matrix. */
  ghost predicate Listed(scenarios: seq<Scenario>) {
    && |scenarios| == 8
    && scenarios[0].id == OversizedAdmission && scenarios[1].id == OcrIngestion
    && scenarios[2].id == DuplicateRejection && scenarios[3].id == MixedOversized
    && scenarios[4].id == MixedOcr && scenarios[5].id == MixedDuplicate
    && scenarios[6].id == ValidRetry && scenarios[7].id == GroundedQuery
  }

  lemma ListedIds(s: seq<Scenario>)
    requires Listed(s)
    ensures Ids(s) == SCENARIOS
    ensures forall i, j | 0 <= i < j < |s| :: s[i].id != s[j].id
  {
    forall id
      ensures id in SCENARIOS ==> id in Ids(s)
    {
      if id in SCENARIOS {
        var i := Position(id);
        assert s[i] in s && s[i].id == id;
      }
    }
    forall x | x in s
      ensures x.id in SCENARIOS
    {
    }
  }

  function Position(id: ScenarioId): (i: nat)
    requires id in SCENARIOS
    ensures i < 8
  {
    match id
    case OversizedAdmission => 0
    case OcrIngestion => 1
    case DuplicateRejection => 2
    case MixedOversized => 3
    case MixedOcr => 4
    case MixedDuplicate => 5
    case ValidRetry => 6
    case GroundedQuery => 7
  }

  lemma ScenarioCountAt(rows: seq<Row>, unpaired: Option<Source>, i: nat)
    requires unpaired.Some? <==> HasUnpaired(rows)
    requires i < 8
    ensures |Scenarios(ExpectedCases(rows), unpaired)| == 8
    ensures var s := Scenarios(ExpectedCases(rows), unpaired)[i]; s.count == ExpectedCount(rows, s.id)
  {
  }

  lemma ScenariosListed(cases: RejectionCases, unpaired: Option<Source>)
    ensures Listed(Scenarios(cases, unpaired))
  {
  }

  lemma ScenarioCounts(rows: seq<Row>, unpaired: Option<Source>, scenarios: seq<Scenario>)
    requires unpaired.Some? <==> HasUnpaired(rows)
    requires scenarios == Scenarios(ExpectedCases(rows), unpaired)
    ensures Listed(scenarios)
    ensures forall s | s in scenarios :: s.count == ExpectedCount(rows, s.id)
  {
    ScenariosListed(ExpectedCases(rows), unpaired);
    forall i | 0 <= i < |scenarios|
      ensures scenarios[i].count == ExpectedCount(rows, scenarios[i].id)
    {
      ScenarioCountAt(rows, unpaired, i);
    }
  }

  lemma ListedPasses(body: Body, scenarios: seq<Scenario>)
    requires body.matrix == Matrix(true, scenarios, [SafeErrorCode, BoundedReason, TerminalResponse])
    requires Listed(scenarios) && forall s | s in scenarios :: s.count == ExpectedCount(body.rows, s.id)
    ensures MatrixOk(body)
  {
    ListedIds(scenarios);
  }

  lemma BodyMatrix(rows: seq<Row>)
    ensures BodyOf(rows).rows == rows
    ensures BodyOf(rows).matrix == Matrix(true, Scenarios(ExpectedCases(rows), Unpaired(rows)),
                                          [SafeErrorCode, BoundedReason, TerminalResponse])
  {
  }

  lemma ScenariosPassFor(rows: seq<Row>, body: Body, unpaired: Option<Source>, scenarios: seq<Scenario>)
    requires unpaired.Some? <==> HasUnpaired(rows)
    requires scenarios == Scenarios(ExpectedCases(rows), unpaired) && body.rows == rows
    requires body.matrix == Matrix(true, scenarios, [SafeErrorCode, BoundedReason, TerminalResponse])
    ensures MatrixOk(body)
  {
    ScenarioCounts(rows, unpaired, scenarios);
    ListedPasses(body, scenarios);
  }

  lemma ScenariosPass(rows: seq<Row>)
    ensures MatrixOk(BodyOf(rows))
  {
    UnpairedAgrees(rows);
    BodyMatrix(rows);
    ScenariosPassFor(rows, BodyOf(rows), Unpaired(rows), Scenarios(ExpectedCases(rows), Unpaired(rows)));
  }

  lemma PopulationPasses(rows: seq<Row>)
    requires DigestsDistinct(OfDisposition(rows, Eligible))
    ensures PopulationOk(BodyOf(rows))
  {
    SortMembers(SourceBefore, SourcesOf(OfDisposition(rows, Eligible)));
  }

  lemma ManifestPasses(items: seq<Item>, checks: map<Digest, TextCheck>, rows: seq<Row>)
    requires Buildable(items, checks) && Inventoried(items) && SizesAgree(items) && Lists(items, checks, rows)
    ensures Accepted(Assemble(rows))
  {
    forall r | r in rows
      ensures RowOk(r)
    {
      var k := ItemOf(items, checks, rows, r);
      FinalRowOk(items, checks, k);
    }
    GroupsPass(items, checks, rows);
    EligibleDigestsDistinct(items, checks, rows);
    PopulationPasses(rows);
    ScenariosPass(rows);
  }

  /** The validator compares the sizes of equal bytes, which the builder does not. */
  lemma AcceptedSizes(items: seq<Item>, checks: map<Digest, TextCheck>, rows: seq<Row>)
    requires Buildable(items, checks) && Lists(items, checks, rows) && Accepted(Assemble(rows))
    ensures SizesAgree(items)
  {
    forall i, j | 0 <= i < |items| && 0 <= j < |items| && items[i].digest == items[j].digest
      ensures items[i].size == items[j].size
    {
      var a, b := FinalRow(items, checks, i), FinalRow(items, checks, j);
      FinalRowKeeps(items, checks, i);
      FinalRowKeeps(items, checks, j);
      assert a in rows && b in rows;
      GroupOf(Assemble(rows), a);
      assert b in OfDigest(rows, a.digest);
    }
  }

  /**
   For every inventory on which the builder reaches its own validation call, the validator accepts
   exactly if equal bytes were inventoried with equal sizes.
   */
  lemma BuilderMeetsValidator(items: seq<Item>, checks: map<Digest, TextCheck>)
    requires Buildable(items, checks) && Inventoried(items)
    ensures Accepted(Assemble(BuiltRows(items, checks))) <==> SizesAgree(items)
  {
    var rows := BuiltRows(items, checks);
    BuiltRowsList(items, checks);
    if SizesAgree(items) {
      ManifestPasses(items, checks, rows);
    }
    if Accepted(Assemble(rows)) {
      AcceptedSizes(items, checks, rows);
    }
  }

  /** Given equal sizes, only the media type can make equal bytes fall into different classes. */
  lemma ClassConflictImpossible(items: seq<Item>, checks: map<Digest, TextCheck>)
    requires SizesAgree(items) && MediaAgree(items)
    ensures ClassesAgree(items, checks)
  {
  }
}
