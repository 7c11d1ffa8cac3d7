/**
 The replacement acceptance manifest and its independent validator. A manifest digest is modelled as
 the body it identifies; a digest of a sorted list of source digests as their multiset.
 */
module Manifest {
  import opened Basics
  import opened Sorting

  type Path = string
  type Digest = string

  const MAX_PDF_BYTES: int := 90 * 1024 * 1024
  const MAX_OTHER_BYTES: int := 25 * 1024 * 1024

  datatype Media = Pdf | Markdown | PlainText | UnsupportedMedia
  datatype TextCheck = NoNativeText | AllPages | SomePages | UnknownResult
  datatype Disposition = Eligible | Oversize | OcrRequired | Duplicate | UnknownDisposition
  datatype Reason = SourceTooLarge | OcrDisabled | DuplicateIdentity | OtherReason

  datatype Row = Row(
    path: Path,
    size: int,
    media: Media,
    digest: Digest,
    disposition: Disposition,
    reason: Option<Reason>,
    check: Option<TextCheck>,
    canonical: Option<Path>)

  datatype Source = Source(path: Path, size: int, media: Media, digest: Digest)
  datatype RejectedCase = RejectedCase(path: Path, digest: Digest, canonical: Option<Path>)
  datatype RejectionCases =
    RejectionCases(oversized: seq<RejectedCase>, ocrRequired: seq<RejectedCase>, duplicates: seq<RejectedCase>)

  datatype SelectionRule =
    SelectionRule(media: seq<Media>, pdfMax: int, otherMax: int, dedup: bool, nativeText: bool, ocr: bool)
  datatype Counts = Counts(paths: int, identities: int, eligible: int, oversize: int, ocr: int, duplicate: int)
  datatype Population = Population(count: int, identity: multiset<Digest>, sources: seq<Source>)

  datatype ScenarioId =
    | OversizedAdmission
    | OcrIngestion
    | DuplicateRejection
    | MixedOversized
    | MixedOcr
    | MixedDuplicate
    | ValidRetry
    | GroundedQuery
    | OtherScenario(name: string)

  datatype Scenario =
    Scenario(id: ScenarioId, count: int, valid: Option<Digest>, rejected: Option<Digest>, source: Option<Digest>)

  datatype ErrorEvidence = SafeErrorCode | BoundedReason | TerminalResponse | OtherEvidence
  datatype Matrix = Matrix(prepared: bool, scenarios: seq<Scenario>, errorEvidence: seq<ErrorEvidence>)

  datatype Body = Body(
    rule: SelectionRule,
    counts: Counts,
    population: Population,
    cases: RejectionCases,
    matrix: Matrix,
    comparable: bool,
    thresholdsChanged: bool,
    rows: seq<Row>)

  datatype Manifest = Manifest(schemaKnown: bool, body: Body, digest: Option<Body>)

  const RULE: SelectionRule :=
    SelectionRule([Pdf, Markdown, PlainText], MAX_PDF_BYTES, MAX_OTHER_BYTES, true, true, false)

  const SCENARIOS: set<ScenarioId> :=
    {OversizedAdmission, OcrIngestion, DuplicateRejection, MixedOversized, MixedOcr, MixedDuplicate, ValidRetry,
     GroundedQuery}

  // ---------------------------------------------------------------- selections

  function OfDisposition(rows: seq<Row>, d: Disposition): seq<Row> {
    if rows == [] then [] else (if rows[0].disposition == d then [rows[0]] else []) + OfDisposition(rows[1..], d)
  }

  function OfDigest(rows: seq<Row>, digest: Digest): seq<Row> {
    if rows == [] then [] else (if rows[0].digest == digest then [rows[0]] else []) + OfDigest(rows[1..], digest)
  }

  lemma {:induction false} OfDispositionMembers(rows: seq<Row>, d: Disposition)
    ensures forall r :: r in OfDisposition(rows, d) <==> r in rows && r.disposition == d
  {
    if rows != [] {
      OfDispositionMembers(rows[1..], d);
      assert forall r :: r in rows <==> r == rows[0] || r in rows[1..];
    }
  }

  lemma {:induction false} OfDigestMembers(rows: seq<Row>, digest: Digest)
    ensures forall r :: r in OfDigest(rows, digest) <==> r in rows && r.digest == digest
  {
    if rows != [] {
      OfDigestMembers(rows[1..], digest);
      assert forall r :: r in rows <==> r == rows[0] || r in rows[1..];
    }
  }

  lemma {:induction false} OfDispositionDistinct(rows: seq<Row>, d: Disposition)
    requires Distinct(rows)
    ensures Distinct(OfDisposition(rows, d))
  {
    if rows != [] {
      DistinctTail(rows);
      OfDispositionDistinct(rows[1..], d);
      OfDispositionMembers(rows[1..], d);
      var rest := OfDisposition(rows[1..], d);
      if rows[0].disposition == d {
        assert OfDisposition(rows, d)[1..] == rest;
        DistinctTail(OfDisposition(rows, d));
      } else {
        assert OfDisposition(rows, d) == rest;
      }
    }
  }

  lemma {:induction false} OfDigestDistinct(rows: seq<Row>, digest: Digest)
    requires Distinct(rows)
    ensures Distinct(OfDigest(rows, digest))
  {
    if rows != [] {
      DistinctTail(rows);
      OfDigestDistinct(rows[1..], digest);
      OfDigestMembers(rows[1..], digest);
      var rest := OfDigest(rows[1..], digest);
      if rows[0].digest == digest {
        assert OfDigest(rows, digest)[1..] == rest;
        DistinctTail(OfDigest(rows, digest));
      } else {
        assert OfDigest(rows, digest) == rest;
      }
    }
  }

  /** Every row has one of the five dispositions. */
  lemma {:induction false} DispositionCounts(rows: seq<Row>)
    ensures |rows| == |OfDisposition(rows, Eligible)| + |OfDisposition(rows, Oversize)|
                      + |OfDisposition(rows, OcrRequired)| + |OfDisposition(rows, Duplicate)|
                      + |OfDisposition(rows, UnknownDisposition)|
  {
    if rows != [] {
      DispositionCounts(rows[1..]);
    }
  }

  function SourceOf(row: Row): Source {
    Source(row.path, row.size, row.media, row.digest)
  }

  function CaseOf(row: Row): RejectedCase {
    RejectedCase(row.path, row.digest, if row.disposition == Duplicate then row.canonical else None)
  }

  function SourcesOf(rows: seq<Row>): (r: seq<Source>)
    ensures |r| == |rows|
  {
    seq(|rows|, i requires 0 <= i < |rows| => SourceOf(rows[i]))
  }

  function CasesOf(rows: seq<Row>): (r: seq<RejectedCase>)
    ensures |r| == |rows|
  {
    seq(|rows|, i requires 0 <= i < |rows| => CaseOf(rows[i]))
  }

  function Digests(rows: seq<Row>): set<Digest> {
    set r | r in rows :: r.digest
  }

  function DigestList(rows: seq<Row>): seq<Digest> {
    seq(|rows|, i requires 0 <= i < |rows| => rows[i].digest)
  }

  // ---------------------------------------------------------------- the validator

  function SizeLimit(media: Media): int {
    if media == Pdf then MAX_PDF_BYTES else MAX_OTHER_BYTES
  }

  predicate HeaderOk(m: Manifest) {
    m.schemaKnown && m.digest == Some(m.body) && m.body.rows != [] && m.body.rule == RULE
  }

  predicate PathsDistinct(rows: seq<Row>) {
    forall i, j | 0 <= i < j < |rows| :: rows[i].path != rows[j].path
  }

  predicate CountsOk(body: Body) {
    && body.counts.paths == |body.rows|
    && body.counts.eligible == |OfDisposition(body.rows, Eligible)|
    && body.counts.oversize == |OfDisposition(body.rows, Oversize)|
    && body.counts.ocr == |OfDisposition(body.rows, OcrRequired)|
    && body.counts.duplicate == |OfDisposition(body.rows, Duplicate)|
  }

  predicate RowOk(row: Row) {
    && row.size >= 0 && row.media != UnsupportedMedia
    && if row.size > SizeLimit(row.media) then
         row.disposition == Oversize && row.reason == Some(SourceTooLarge)
       else if row.media == Pdf then
         row.check.Some?
         && match row.check.value
            case NoNativeText => row.disposition in {OcrRequired, Duplicate}
            case UnknownResult => false
            case _ => row.disposition in {Eligible, Duplicate}
       else row.disposition in {Eligible, Duplicate}
  }

  predicate SameIdentity(group: seq<Row>) {
    forall r, r' | r in group && r' in group :: r.media == r'.media && r.size == r'.size
  }

  predicate HasDisposition(group: seq<Row>, d: Disposition) {
    exists r | r in group :: r.disposition == d
  }

  /** All rows of one byte identity. */
  predicate GroupOk(group: seq<Row>) {
    && SameIdentity(group)
    && if |group| == 1 then !HasDisposition(group, Duplicate)
       else if HasDisposition(group, Eligible) && HasDisposition(group, Duplicate)
               && forall r | r in group :: r.disposition in {Eligible, Duplicate} then
         var canonical := OfDisposition(group, Eligible);
         && |canonical| == 1
         && forall r | r in group && r.disposition == Duplicate ::
              r.canonical == Some(canonical[0].path) && r.reason == Some(DuplicateIdentity)
       else
         && !HasDisposition(group, Duplicate)
         && forall r, r' | r in group && r' in group :: r.disposition == r'.disposition
  }

  predicate GroupsOk(rows: seq<Row>) {
    forall d | d in Digests(rows) :: GroupOk(OfDigest(rows, d))
  }

  predicate DigestsDistinct(rows: seq<Row>) {
    forall i, j | 0 <= i < j < |rows| :: rows[i].digest != rows[j].digest
  }

  predicate PopulationOk(body: Body) {
    var eligible := OfDisposition(body.rows, Eligible);
    && body.population.count == |body.population.sources| == |eligible|
    && DigestsDistinct(eligible)
    && multiset(body.population.sources) == multiset(SourcesOf(eligible))
    && body.population.identity == multiset(DigestList(eligible))
  }

  function ExpectedCases(rows: seq<Row>): RejectionCases {
    RejectionCases(CasesOf(OfDisposition(rows, Oversize)), CasesOf(OfDisposition(rows, OcrRequired)),
                   CasesOf(OfDisposition(rows, Duplicate)))
  }

  /** Some eligible row shares its bytes with no duplicate. */
  predicate HasUnpaired(rows: seq<Row>) {
    exists r | r in rows :: r.disposition == Eligible && r.digest !in Digests(OfDisposition(rows, Duplicate))
  }

  function Indicator(b: bool): int {
    if b then 1 else 0
  }

  function ExpectedCount(rows: seq<Row>, id: ScenarioId): int {
    match id
    case OversizedAdmission => |OfDisposition(rows, Oversize)|
    case OcrIngestion => |OfDisposition(rows, OcrRequired)|
    case DuplicateRejection => |OfDisposition(rows, Duplicate)|
    case MixedOversized => Indicator(HasUnpaired(rows) && OfDisposition(rows, Oversize) != [])
    case MixedOcr => Indicator(HasUnpaired(rows) && OfDisposition(rows, OcrRequired) != [])
    case MixedDuplicate => Indicator(HasUnpaired(rows) && OfDisposition(rows, Duplicate) != [])
    case ValidRetry => Indicator(HasUnpaired(rows))
    case GroundedQuery => Indicator(HasUnpaired(rows))
    case OtherScenario(_) => 0
  }

  function Ids(scenarios: seq<Scenario>): set<ScenarioId> {
    set s | s in scenarios :: s.id
  }

  predicate MatrixOk(body: Body) {
    var scenarios := body.matrix.scenarios;
    && body.matrix.prepared
    && (forall i, j | 0 <= i < j < |scenarios| :: scenarios[i].id != scenarios[j].id)
    && Ids(scenarios) == SCENARIOS
    && (forall s | s in scenarios :: s.count == ExpectedCount(body.rows, s.id))
    && SafeErrorCode in body.matrix.errorEvidence && BoundedReason in body.matrix.errorEvidence
    && TerminalResponse in body.matrix.errorEvidence
  }

  /** `validate_replacement_manifest` raises nothing. */
  predicate Accepted(m: Manifest) {
    && HeaderOk(m)
    && PathsDistinct(m.body.rows)
    && CountsOk(m.body)
    && (forall r | r in m.body.rows :: RowOk(r))
    && GroupsOk(m.body.rows)
    && m.body.counts.identities == |Digests(m.body.rows)|
    && PopulationOk(m.body)
    && m.body.cases == ExpectedCases(m.body.rows)
    && MatrixOk(m.body)
    && !m.body.comparable && !m.body.thresholdsChanged
  }

  predicate SourceBefore(a: Source, b: Source) {
    TextLe(a.path, b.path)
  }

  lemma {:induction false} OfDigestAppend(rows: seq<Row>, row: Row, digest: Digest)
    ensures OfDigest(rows + [row], digest) == OfDigest(rows, digest) + (if row.digest == digest then [row] else [])
  {
    var last := if row.digest == digest then [row] else [];
    if rows == [] {
      assert rows + [row] == [row] && [row][1..] == [];
    } else {
      var first := if rows[0].digest == digest then [rows[0]] else [];
      assert (rows + [row])[0] == rows[0] && (rows + [row])[1..] == rows[1..] + [row];
      OfDigestAppend(rows[1..], row, digest);
      assert first + (OfDigest(rows[1..], digest) + last) == (first + OfDigest(rows[1..], digest)) + last;
    }
  }

  /** The rows grouped by digest, and the digests in the order they first occur. */
  ghost predicate Grouped(rows: seq<Row>, byDigest: map<Digest, seq<Row>>, order: seq<Digest>) {
    && byDigest.Keys == Digests(rows)
    && (forall d | d in byDigest :: byDigest[d] == OfDigest(rows, d))
    && (forall d :: d in order <==> d in byDigest) && Distinct(order)
  }

  /** One more row joins its group, `setdefault(digest, []).append(row)`. */
  lemma GroupedStep(rows: seq<Row>, row: Row, byDigest: map<Digest, seq<Row>>, order: seq<Digest>)
    requires Grouped(rows, byDigest, order)
    ensures var d := row.digest;
            var group := (if d in byDigest then byDigest[d] else []) + [row];
            Grouped(rows + [row], byDigest[d := group], if d in byDigest then order else order + [d])
  {
    var d := row.digest;
    var group := (if d in byDigest then byDigest[d] else []) + [row];
    var grown, rows' := byDigest[d := group], rows + [row];
    forall r
      ensures r in rows' <==> r in rows || r == row
    {
    }
    assert Digests(rows') == Digests(rows) + {d};
    forall k | k in grown
      ensures grown[k] == OfDigest(rows', k)
    {
      OfDigestAppend(rows, row, k);
      if k == d && d !in byDigest {
        NoRowsOf(rows, d);
      }
    }
  }

  lemma {:induction false} NoRowsOf(rows: seq<Row>, digest: Digest)
    requires digest !in Digests(rows)
    ensures OfDigest(rows, digest) == []
  {
    if rows != [] {
      assert rows[0] in rows && forall r | r in rows[1..] :: r in rows;
      NoRowsOf(rows[1..], digest);
    }
  }

  method GroupRows(rows: seq<Row>) returns (sound: bool, byDigest: map<Digest, seq<Row>>, order: seq<Digest>)
    ensures sound <==> forall r | r in rows :: RowOk(r)
    ensures sound ==> Grouped(rows, byDigest, order)
  {
    byDigest, order, sound := map[], [], true;
    for i := 0 to |rows|
      invariant forall r | r in rows[..i] :: RowOk(r)
      invariant Grouped(rows[..i], byDigest, order)
    {
      var row := rows[i];
      assert row in rows && rows[..i + 1] == rows[..i] + [row];
      if !RowOk(row) {
        return false, byDigest, order;
      }
      GroupedStep(rows[..i], row, byDigest, order);
      if row.digest !in byDigest {
        order := order + [row.digest];
      }
      byDigest := byDigest[row.digest := (if row.digest in byDigest then byDigest[row.digest] else []) + [row]];
    }
    assert rows[..|rows|] == rows;
  }

  method CheckGroups(rows: seq<Row>, byDigest: map<Digest, seq<Row>>, order: seq<Digest>) returns (ok: bool)
    requires Grouped(rows, byDigest, order)
    ensures ok <==> GroupsOk(rows)
  {
    for i := 0 to |order|
      invariant forall k | 0 <= k < i :: GroupOk(OfDigest(rows, order[k]))
    {
      assert order[i] in order;
      if !GroupOk(byDigest[order[i]]) {
        return false;
      }
    }
    return true;
  }

  /** `validate_replacement_manifest`: its grouping loops, then the comparisons. */
  method ValidateManifest(m: Manifest) returns (sources: Option<seq<Source>>)
    ensures sources.Some? <==> Accepted(m)
    ensures sources.Some? ==> sources.value == Sort(SourceBefore, m.body.population.sources)
  {
    var body := m.body;
    if !HeaderOk(m) || !PathsDistinct(body.rows) || !CountsOk(body) {
      return None;
    }
    var sound, byDigest, order := GroupRows(body.rows);
    if !sound {
      return None;
    }
    var consistent := CheckGroups(body.rows, byDigest, order);
    DistinctSize(order, Digests(body.rows));
    if !consistent || |order| != body.counts.identities || !PopulationOk(body)
       || body.cases != ExpectedCases(body.rows) || !MatrixOk(body) || body.comparable || body.thresholdsChanged
    {
      return None;
    }
    return Some(Sort(SourceBefore, body.population.sources));
  }

  // ---------------------------------------------------------------- what acceptance guarantees

  lemma GroupOf(m: Manifest, row: Row)
    requires Accepted(m) && row in m.body.rows
    ensures GroupOk(OfDigest(m.body.rows, row.digest)) && row in OfDigest(m.body.rows, row.digest)
    ensures forall r :: r in OfDigest(m.body.rows, row.digest) <==> r in m.body.rows && r.digest == row.digest
  {
    OfDigestMembers(m.body.rows, row.digest);
    assert row.digest in Digests(m.body.rows);
  }

  /** The four dispositions partition the paths, and the recorded counts are their sizes. */
  lemma DispositionsPartition(m: Manifest)
    requires Accepted(m)
    ensures forall i, j | 0 <= i < j < |m.body.rows| :: m.body.rows[i].path != m.body.rows[j].path
    ensures forall r | r in m.body.rows :: r.disposition in {Eligible, Oversize, OcrRequired, Duplicate}
    ensures var c := m.body.counts;
            c.eligible + c.oversize + c.ocr + c.duplicate == c.paths == |m.body.rows|
  {
    DispositionCounts(m.body.rows);
    OfDispositionMembers(m.body.rows, UnknownDisposition);
    if OfDisposition(m.body.rows, UnknownDisposition) != [] {
      var r := OfDisposition(m.body.rows, UnknownDisposition)[0];
      assert r in OfDisposition(m.body.rows, UnknownDisposition);
      assert RowOk(r);
    }
  }

  /** No byte identity has two eligible rows. */
  lemma OneEligiblePerIdentity(m: Manifest, a: Row, b: Row)
    requires Accepted(m) && a in m.body.rows && b in m.body.rows
    requires a.disposition == Eligible && b.disposition == Eligible && a.digest == b.digest
    ensures a == b
  {
    var eligible := OfDisposition(m.body.rows, Eligible);
    OfDispositionMembers(m.body.rows, Eligible);
    assert a in eligible && b in eligible;
    var i :| 0 <= i < |eligible| && eligible[i] == a;
    var j :| 0 <= j < |eligible| && eligible[j] == b;
  }

  /** Every duplicate names the one eligible row with its bytes, which has its media type and size. */
  lemma DuplicateNamesEligible(m: Manifest, row: Row) returns (canonical: Row)
    requires Accepted(m) && row in m.body.rows && row.disposition == Duplicate
    ensures canonical in m.body.rows && canonical.disposition == Eligible && canonical.digest == row.digest
    ensures row.canonical == Some(canonical.path) && row.reason == Some(DuplicateIdentity)
    ensures canonical.media == row.media && canonical.size == row.size
    ensures forall r | r in m.body.rows && r.disposition == Eligible && r.digest == row.digest :: r == canonical
  {
    var group := OfDigest(m.body.rows, row.digest);
    GroupOf(m, row);
    OfDispositionMembers(group, Eligible);
    canonical := OfDisposition(group, Eligible)[0];
    assert canonical in OfDisposition(group, Eligible);
    forall r | r in m.body.rows && r.disposition == Eligible && r.digest == row.digest
      ensures r == canonical
    {
      OneEligiblePerIdentity(m, r, canonical);
    }
  }

  /** The ingestion sources are the eligible rows, and oversize and OCR rows have no other rows of their bytes. */
  lemma SourcesAreEligible(m: Manifest, s: Source)
    requires Accepted(m)
    ensures s in m.body.population.sources <==>
              exists r | r in m.body.rows :: r.disposition == Eligible && SourceOf(r) == s
  {
    var eligible := OfDisposition(m.body.rows, Eligible);
    OfDispositionMembers(m.body.rows, Eligible);
    SameMembers(m.body.population.sources, SourcesOf(eligible), s);
    if s in SourcesOf(eligible) {
      var i :| 0 <= i < |eligible| && SourcesOf(eligible)[i] == s;
      assert eligible[i] in eligible && SourceOf(eligible[i]) == s;
    }
    if r :| r in m.body.rows && r.disposition == Eligible && SourceOf(r) == s {
      assert r in eligible;
      var i :| 0 <= i < |eligible| && eligible[i] == r;
      assert SourcesOf(eligible)[i] == s;
    }
  }
}
