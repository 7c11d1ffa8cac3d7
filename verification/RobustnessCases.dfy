/**
 The rejection cases derived from an accepted manifest, the evidence of one case, and the final
 verdict over the whole matrix. The query and cold-cell evidence is one input of that verdict.
 */
module RobustnessCases {
  import opened Basics
  import opened Sorting
  import opened Manifest
  import opened ManifestBuilder

  datatype Category = OversizedInput | OcrInput | DuplicateInput

  /** `scenario:ordinal`. */
  datatype CaseId = CaseId(scenario: ScenarioId, ordinal: int)

  /** What the manifest prescribes for a case; a retry is required when it names a source. */
  datatype CaseSpec = CaseSpec(category: Category, inputs: seq<Digest>, retry: Option<Digest>)

  const INDIVIDUAL: seq<ScenarioId> := [OversizedAdmission, OcrIngestion, DuplicateRejection]
  const MIXED: seq<ScenarioId> := [MixedOversized, MixedOcr, MixedDuplicate]

  function CategoryOf(id: ScenarioId): Category {
    match id
    case OversizedAdmission => OversizedInput
    case MixedOversized => OversizedInput
    case OcrIngestion => OcrInput
    case MixedOcr => OcrInput
    case _ => DuplicateInput
  }

  function DispositionOf(id: ScenarioId): Disposition {
    match id
    case OversizedAdmission => Oversize
    case OcrIngestion => OcrRequired
    case _ => Duplicate
  }

  function Find(scenarios: seq<Scenario>, id: ScenarioId): Option<Scenario> {
    if scenarios == [] then None
    else if scenarios[0].id == id then Some(scenarios[0])
    else Find(scenarios[1..], id)
  }

  function CasesFor(m: Manifest, id: ScenarioId): seq<Row> {
    OfDisposition(m.body.rows, DispositionOf(id))
  }

  function ScenarioOf(m: Manifest, id: ScenarioId): Option<Scenario> {
    Find(m.body.matrix.scenarios, id)
  }

  predicate IndividualOk(m: Manifest, id: ScenarioId) {
    ScenarioOf(m, id).Some? && |CasesFor(m, id)| == ScenarioOf(m, id).value.count
  }

  predicate MixedOk(m: Manifest, id: ScenarioId) {
    var s, retry := ScenarioOf(m, id), ScenarioOf(m, ValidRetry);
    && s.Some? && retry.Some?
    && s.value.count == 1
    && s.value.valid.Some? && s.value.valid == retry.value.source
    && s.value.rejected.Some? && s.value.valid != s.value.rejected
  }

  /** `_expected_robustness_case_specs` raises nothing. */
  predicate Derivable(pinned: Body, m: Manifest) {
    && m.digest == Some(pinned) && Accepted(m)
    && (forall id | id in INDIVIDUAL :: IndividualOk(m, id))
    && (forall id | id in MIXED :: MixedOk(m, id))
  }

  function IdsUpTo(id: ScenarioId, n: nat): set<CaseId> {
    set o | 1 <= o <= n :: CaseId(id, o)
  }

  /** The case identifiers of one scenario. */
  function IdsOf(m: Manifest, id: ScenarioId): set<CaseId> {
    if id in INDIVIDUAL then IdsUpTo(id, |CasesFor(m, id)|)
    else if id in MIXED then {CaseId(id, 1)}
    else {}
  }

  function IdsOfFirst(m: Manifest, list: seq<ScenarioId>, n: nat): set<CaseId>
    requires n <= |list|
  {
    if n == 0 then {} else IdsOfFirst(m, list, n - 1) + IdsOf(m, list[n - 1])
  }

  function SpecIds(m: Manifest): set<CaseId> {
    IdsOfFirst(m, INDIVIDUAL, 3) + IdsOfFirst(m, MIXED, 3)
  }

  /** What the manifest prescribes for one of its identifiers. */
  function SpecOf(m: Manifest, id: CaseId): CaseSpec {
    if id.scenario in INDIVIDUAL then
      if 1 <= id.ordinal <= |CasesFor(m, id.scenario)| then
        CaseSpec(CategoryOf(id.scenario), [CasesFor(m, id.scenario)[id.ordinal - 1].digest], None)
      else CaseSpec(CategoryOf(id.scenario), [], None)
    else
      var s := ScenarioOf(m, id.scenario);
      if s.Some? && s.value.valid.Some? && s.value.rejected.Some? then
        CaseSpec(CategoryOf(id.scenario), [s.value.valid.value, s.value.rejected.value], s.value.valid)
      else CaseSpec(CategoryOf(id.scenario), [], None)
  }

  // ---------------------------------------------------------------- deriving the specs

  /** `specs` holds exactly the specs of `ids`. */
  ghost predicate Specifies(m: Manifest, specs: map<CaseId, CaseSpec>, ids: set<CaseId>) {
    specs.Keys == ids && forall id | id in specs :: specs[id] == SpecOf(m, id)
  }

  method AddIndividual(m: Manifest, id: ScenarioId, specs: map<CaseId, CaseSpec>, ghost ids: set<CaseId>)
    returns (grown: map<CaseId, CaseSpec>)
    requires id in INDIVIDUAL && Specifies(m, specs, ids)
    ensures Specifies(m, grown, ids + IdsOf(m, id))
  {
    grown := specs;
    var rows := CasesFor(m, id);
    for k := 0 to |rows|
      invariant Specifies(m, grown, ids + IdsUpTo(id, k))
    {
      IdsUpToStep(id, k + 1);
      grown := grown[CaseId(id, k + 1) := CaseSpec(CategoryOf(id), [rows[k].digest], None)];
    }
  }

  method AddIndividuals(m: Manifest) returns (specs: Option<map<CaseId, CaseSpec>>)
    ensures specs.Some? <==> forall id | id in INDIVIDUAL :: IndividualOk(m, id)
    ensures specs.Some? ==> Specifies(m, specs.value, IdsOfFirst(m, INDIVIDUAL, 3))
  {
    var derived: map<CaseId, CaseSpec> := map[];
    for i := 0 to |INDIVIDUAL|
      invariant forall k | 0 <= k < i :: IndividualOk(m, INDIVIDUAL[k])
      invariant Specifies(m, derived, IdsOfFirst(m, INDIVIDUAL, i))
    {
      assert INDIVIDUAL[i] in INDIVIDUAL;
      if !IndividualOk(m, INDIVIDUAL[i]) {
        return None;
      }
      derived := AddIndividual(m, INDIVIDUAL[i], derived, IdsOfFirst(m, INDIVIDUAL, i));
    }
    return Some(derived);
  }

  function MixedSpec(m: Manifest, id: ScenarioId): CaseSpec
    requires MixedOk(m, id)
  {
    var s := ScenarioOf(m, id).value;
    CaseSpec(CategoryOf(id), [s.valid.value, s.rejected.value], s.valid)
  }

  method AddMixed(m: Manifest, individual: map<CaseId, CaseSpec>, ghost ids: set<CaseId>)
    returns (specs: Option<map<CaseId, CaseSpec>>)
    requires Specifies(m, individual, ids)
    ensures specs.Some? <==> forall id | id in MIXED :: MixedOk(m, id)
    ensures specs.Some? ==> Specifies(m, specs.value, ids + IdsOfFirst(m, MIXED, 3))
  {
    var derived := individual;
    for i := 0 to |MIXED|
      invariant forall k | 0 <= k < i :: MixedOk(m, MIXED[k])
      invariant Specifies(m, derived, ids + IdsOfFirst(m, MIXED, i))
    {
      var id := MIXED[i];
      assert id in MIXED && id !in INDIVIDUAL;
      if !MixedOk(m, id) {
        return None;
      }
      derived := derived[CaseId(id, 1) := MixedSpec(m, id)];
    }
    return Some(derived);
  }

  /** `_expected_robustness_case_specs`. */
  method ExpectedCaseSpecs(pinned: Body, m: Manifest) returns (specs: Option<map<CaseId, CaseSpec>>)
    ensures specs.Some? <==> Derivable(pinned, m)
    ensures specs.Some? ==> Specifies(m, specs.value, SpecIds(m))
  {
    if m.digest != Some(pinned) {
      return None;
    }
    var sources := ValidateManifest(m);
    if sources.None? {
      return None;
    }
    var individual := AddIndividuals(m);
    if individual.None? {
      return None;
    }
    specs := AddMixed(m, individual.value, IdsOfFirst(m, INDIVIDUAL, 3));
  }

  // ---------------------------------------------------------------- when the specs can be derived

  lemma {:induction false} FindFinds(scenarios: seq<Scenario>, id: ScenarioId)
    ensures Find(scenarios, id).Some? <==> id in Ids(scenarios)
    ensures Find(scenarios, id).Some? ==> Find(scenarios, id).value in scenarios && Find(scenarios, id).value.id == id
  {
    if scenarios != [] {
      FindFinds(scenarios[1..], id);
      assert forall s :: s in scenarios <==> s == scenarios[0] || s in scenarios[1..];
      assert scenarios[0] in scenarios;
      if scenarios[0].id != id && id in Ids(scenarios) {
        var s :| s in scenarios && s.id == id;
        assert s in scenarios[1..];
      }
    }
  }

  /** In an accepted manifest every scenario is there, with the count its rows call for. */
  lemma AcceptedScenario(m: Manifest, id: ScenarioId)
    requires Accepted(m) && id in SCENARIOS
    ensures ScenarioOf(m, id).Some? && ScenarioOf(m, id).value.count == ExpectedCount(m.body.rows, id)
  {
    FindFinds(m.body.matrix.scenarios, id);
  }

  /** The case counts the harness re-checks never differ from those the validator checked. */
  lemma IndividualNeverFails(m: Manifest, id: ScenarioId)
    requires Accepted(m) && id in INDIVIDUAL
    ensures IndividualOk(m, id)
  {
    AcceptedScenario(m, id);
  }

  lemma EligibleNotRejected(m: Manifest, a: Row, b: Row)
    requires Accepted(m) && a in m.body.rows && b in m.body.rows
    requires a.disposition == Eligible && b.disposition in {Oversize, OcrRequired}
    ensures a.digest != b.digest
  {
    if a.digest == b.digest {
      GroupOf(m, a);
      EligibleGroupMembers(OfDigest(m.body.rows, a.digest), a, b);
    }
  }

  lemma EligibleGroupMembers(group: seq<Row>, a: Row, b: Row)
    requires GroupOk(group) && a in group && b in group && a.disposition == Eligible
    ensures b.disposition in {Eligible, Duplicate}
  {
  }

  lemma FirstCaseDigest(rows: seq<Row>)
    ensures FirstDigest(CasesOf(rows)).Some? <==> rows != []
    ensures rows != [] ==> FirstDigest(CasesOf(rows)).value == rows[0].digest && rows[0] in rows
  {
  }

  /** The mixed scenarios of a built manifest, and its retry scenario. */
  lemma BuiltScenario(rows: seq<Row>, id: ScenarioId, d: Disposition)
    requires (id == MixedOversized && d == Oversize) || (id == MixedOcr && d == OcrRequired)
             || (id == MixedDuplicate && d == Duplicate)
    ensures var one := Indicator(Unpaired(rows).Some?);
            ScenarioOf(Assemble(rows), id)
            == Some(Scenario(id, if OfDisposition(rows, d) != [] then one else 0, DigestOf(Unpaired(rows)),
                             FirstDigest(CasesOf(OfDisposition(rows, d))), None))
    ensures ScenarioOf(Assemble(rows), ValidRetry)
            == Some(Scenario(ValidRetry, Indicator(Unpaired(rows).Some?), None, None, DigestOf(Unpaired(rows))))
  {
    var scenarios := Scenarios(ExpectedCases(rows), Unpaired(rows));
    BodyMatrix(rows);
    ScenariosAre(ExpectedCases(rows), Unpaired(rows), scenarios);
    FindInEight(scenarios);
    assert Assemble(rows).body.matrix.scenarios == scenarios;
  }

  lemma ScenariosAre(cases: RejectionCases, unpaired: Option<Source>, s: seq<Scenario>)
    requires s == Scenarios(cases, unpaired)
    ensures Listed(s)
    ensures var one := Indicator(unpaired.Some?);
            && s[3] == Scenario(MixedOversized, if cases.oversized != [] then one else 0, DigestOf(unpaired),
                                FirstDigest(cases.oversized), None)
            && s[4] == Scenario(MixedOcr, if cases.ocrRequired != [] then one else 0, DigestOf(unpaired),
                                FirstDigest(cases.ocrRequired), None)
            && s[5] == Scenario(MixedDuplicate, if cases.duplicates != [] then one else 0, DigestOf(unpaired),
                                FirstDigest(cases.duplicates), None)
            && s[6] == Scenario(ValidRetry, one, None, None, DigestOf(unpaired))
  {
  }

  lemma FindInEight(s: seq<Scenario>)
    requires Listed(s)
    ensures Find(s, MixedOversized) == Some(s[3]) && Find(s, MixedOcr) == Some(s[4])
    ensures Find(s, MixedDuplicate) == Some(s[5]) && Find(s, ValidRetry) == Some(s[6])
  {
    FindFinds(s, MixedOversized);
    FindFinds(s, MixedOcr);
    FindFinds(s, MixedDuplicate);
    FindFinds(s, ValidRetry);
    ListedIds(s);
    assert s[3].id in Ids(s) && s[4].id in Ids(s) && s[5].id in Ids(s) && s[6].id in Ids(s);
  }

  /** The unpaired source is none of the rejected ones. */
  lemma UnpairedDiffers(m: Manifest, rows: seq<Row>, d: Disposition)
    requires Accepted(m) && m.body.rows == rows && HasUnpaired(rows)
    requires d in {Oversize, OcrRequired, Duplicate} && OfDisposition(rows, d) != []
    ensures Unpaired(rows).Some? && Unpaired(rows).value.digest != OfDisposition(rows, d)[0].digest
  {
    UnpairedAgrees(rows);
    OfDispositionMembers(rows, d);
    var a :| a in rows && a.disposition == Eligible && a.digest == Unpaired(rows).value.digest;
    var b := OfDisposition(rows, d)[0];
    assert b in OfDisposition(rows, d);
    if d == Duplicate {
      assert b.digest in Digests(OfDisposition(rows, Duplicate));
    } else {
      EligibleNotRejected(m, a, b);
    }
  }

  lemma MixedWhen(m: Manifest, id: ScenarioId, unpaired: Option<Source>, rejected: seq<Row>)
    requires var one := Indicator(unpaired.Some?);
             ScenarioOf(m, id) == Some(Scenario(id, if rejected != [] then one else 0, DigestOf(unpaired),
                                                FirstDigest(CasesOf(rejected)), None))
    requires ScenarioOf(m, ValidRetry)
             == Some(Scenario(ValidRetry, Indicator(unpaired.Some?), None, None, DigestOf(unpaired)))
    requires unpaired.Some? && rejected != [] ==> unpaired.value.digest != rejected[0].digest
    ensures MixedOk(m, id) <==> unpaired.Some? && rejected != []
  {
    FirstCaseDigest(rejected);
  }

  /** For a built manifest a mixed scenario is usable exactly if there is something to mix. */
  lemma BuiltMixed(rows: seq<Row>, id: ScenarioId, d: Disposition)
    requires Accepted(Assemble(rows))
    requires (id == MixedOversized && d == Oversize) || (id == MixedOcr && d == OcrRequired)
             || (id == MixedDuplicate && d == Duplicate)
    ensures MixedOk(Assemble(rows), id) <==> HasUnpaired(rows) && OfDisposition(rows, d) != []
  {
    BuiltScenario(rows, id, d);
    UnpairedAgrees(rows);
    if HasUnpaired(rows) && OfDisposition(rows, d) != [] {
      UnpairedDiffers(Assemble(rows), rows, d);
    }
    MixedWhen(Assemble(rows), id, Unpaired(rows), OfDisposition(rows, d));
  }

  /**
   For a manifest the builder delivers, the harness derives its case specs exactly if some eligible
   source is unpaired and each of the three kinds of rejection occurs at least once.
   */
  lemma BuiltSpecsDerivable(items: seq<Item>, checks: map<Digest, TextCheck>)
    requires Buildable(items, checks) && Inventoried(items) && SizesAgree(items)
    ensures var rows := BuiltRows(items, checks);
            Derivable(BodyOf(rows), Assemble(rows)) <==>
              && HasUnpaired(rows) && OfDisposition(rows, Oversize) != []
              && OfDisposition(rows, OcrRequired) != [] && OfDisposition(rows, Duplicate) != []
  {
    var rows := BuiltRows(items, checks);
    BuilderMeetsValidator(items, checks);
    SpecsDerivable(Assemble(rows), rows);
  }

  lemma SpecsDerivable(m: Manifest, rows: seq<Row>)
    requires m == Assemble(rows) && Accepted(m)
    ensures Derivable(BodyOf(rows), m) <==>
              && HasUnpaired(rows) && OfDisposition(rows, Oversize) != []
              && OfDisposition(rows, OcrRequired) != [] && OfDisposition(rows, Duplicate) != []
  {
    IndividualNeverFails(m, OversizedAdmission);
    IndividualNeverFails(m, OcrIngestion);
    IndividualNeverFails(m, DuplicateRejection);
    BuiltMixed(rows, MixedOversized, Oversize);
    BuiltMixed(rows, MixedOcr, OcrRequired);
    BuiltMixed(rows, MixedDuplicate, Duplicate);
    OnlyThree(BodyOf(rows), m);
  }

  lemma OnlyThree(pinned: Body, m: Manifest)
    requires m.digest == Some(pinned) && Accepted(m)
    requires IndividualOk(m, OversizedAdmission) && IndividualOk(m, OcrIngestion) && IndividualOk(m, DuplicateRejection)
    ensures Derivable(pinned, m) <==> MixedOk(m, MixedOversized) && MixedOk(m, MixedOcr) && MixedOk(m, MixedDuplicate)
  {
    assert MixedOversized in MIXED && MixedOcr in MIXED && MixedDuplicate in MIXED;
  }

  // ---------------------------------------------------------------- the evidence of one case

  datatype Workspace = Workspace(revision: int, sourceCount: int, snapshot: string, identity: Digest)
  datatype Operation = NoOperation | FailedOperation | OtherOperation
  datatype SafeCode = DocumentInvalid | RequestInvalid | OtherCode
  datatype Observed = FileTooLarge | OcrNeeded | OcrNeededDisabled | ZeroText | IdentityConflict | OtherObserved
  datatype Rejection = Rejection(http: int, operation: Operation, code: SafeCode, reason: Observed)
  datatype Retry = Retry(succeeded: bool, readiness: int, published: Workspace, source: Digest)

  datatype Record = Record(
    schemaKnown: bool,
    manifest: Option<Body>,
    declaresRetry: bool,
    id: CaseId,
    scenario: ScenarioId,
    ordinal: int,
    category: Category,
    inputs: seq<Digest>,
    before: Workspace,
    after: Workspace,
    readiness: int,
    rejection: Rejection,
    retry: Option<Retry>)

  function AllowedReasons(category: Category): set<Observed> {
    match category
    case OversizedInput => {FileTooLarge}
    case OcrInput => {OcrNeeded, OcrNeededDisabled, ZeroText}
    case DuplicateInput => {IdentityConflict}
  }

  predicate WorkspaceOk(w: Workspace) {
    w.revision >= 1 && w.sourceCount >= 0
  }

  /** Refused at admission, or a managed operation that failed. */
  predicate RejectionOk(r: Rejection, category: Category) {
    && ((400 <= r.http < 500 && r.operation == NoOperation) || (r.http == 202 && r.operation == FailedOperation))
    && r.code in {DocumentInvalid, RequestInvalid}
    && r.reason in AllowedReasons(category)
  }

  predicate RetryOk(retry: Option<Retry>, required: Option<Digest>, before: Workspace) {
    if required.None? then retry.None?
    else
      && retry.Some? && retry.value.succeeded && retry.value.readiness == 200
      && retry.value.published.revision == before.revision + 1
      && retry.value.published.sourceCount == before.sourceCount + 1
      && retry.value.published.identity != before.identity
      && retry.value.source == required.value
      && retry.value.published.snapshot != before.snapshot
  }

  /** `validate_robustness_case_evidence` raises nothing. */
  predicate CaseValid(m: Manifest, record: Record) {
    && record.schemaKnown && record.manifest == m.digest && !record.declaresRetry
    && record.id in SpecIds(m)
    && record.scenario == record.id.scenario && record.ordinal == record.id.ordinal
    && var spec := SpecOf(m, record.id);
       && record.category == spec.category
       && record.inputs != [] && multiset(record.inputs) == multiset(spec.inputs)
       && WorkspaceOk(record.before) && WorkspaceOk(record.after) && record.before == record.after
       && record.readiness == 200
       && RejectionOk(record.rejection, spec.category)
       && RetryOk(record.retry, spec.retry, record.before)
  }

  datatype Summary = Summary(id: CaseId, retrySucceeded: bool)

  function SummaryOf(m: Manifest, record: Record): Summary {
    Summary(record.id, SpecOf(m, record.id).retry.Some? && record.retry.Some? && record.retry.value.succeeded)
  }

  // ---------------------------------------------------------------- the matrix

  datatype MatrixError =
    | SpecsUnavailable
    | InvalidCase
    | DuplicateCase
    | IncompleteCoverage
    | QueriesRejected
    | MissingRetry
    | CountMismatch

  function IdList(records: seq<Record>): (r: seq<CaseId>)
    ensures |r| == |records|
  {
    seq(|records|, i requires 0 <= i < |records| => records[i].id)
  }

  function IdSet(ids: seq<CaseId>): set<CaseId> {
    set id | id in ids
  }

  /** The records are the cases of the manifest, each exactly once. */
  ghost predicate InBijection(m: Manifest, records: seq<Record>) {
    Distinct(IdList(records)) && IdSet(IdList(records)) == SpecIds(m)
  }

  function CountScenario(ids: seq<CaseId>, s: ScenarioId): nat {
    if ids == [] then 0
    else CountScenario(ids[..|ids| - 1], s) + (if ids[|ids| - 1].scenario == s then 1 else 0)
  }

  ghost function OfScenario(ids: seq<CaseId>, s: ScenarioId): set<CaseId> {
    set id | id in ids && id.scenario == s
  }

  lemma OfScenarioStep(ids: seq<CaseId>, s: ScenarioId, rest: seq<CaseId>, last: CaseId)
    requires ids == rest + [last]
    ensures OfScenario(ids, s) == OfScenario(rest, s) + (if last.scenario == s then {last} else {})
  {
    forall id: CaseId
      ensures id in ids <==> id in rest || id == last
    {
    }
  }

  lemma {:induction false} CountIsSize(ids: seq<CaseId>, s: ScenarioId)
    requires Distinct(ids)
    ensures CountScenario(ids, s) == |OfScenario(ids, s)|
  {
    if ids == [] {
      assert OfScenario(ids, s) == {};
    } else {
      var rest, last := ids[..|ids| - 1], ids[|ids| - 1];
      CountIsSize(rest, s);
      OfScenarioStep(ids, s, rest, last);
      assert last !in rest;
      assert last !in OfScenario(rest, s);
    }
  }

  lemma {:induction false} IdsUpToSize(id: ScenarioId, n: nat)
    ensures |IdsUpTo(id, n)| == n
  {
    if n == 0 {
      assert IdsUpTo(id, n) == {};
    } else {
      IdsUpToSize(id, n - 1);
      IdsUpToStep(id, n);
    }
  }

  lemma IdsUpToStep(id: ScenarioId, n: nat)
    requires n > 0
    ensures IdsUpTo(id, n) == IdsUpTo(id, n - 1) + {CaseId(id, n)}
    ensures CaseId(id, n) !in IdsUpTo(id, n - 1)
  {
    forall x: CaseId
      ensures x in IdsUpTo(id, n) <==> x in IdsUpTo(id, n - 1) || x == CaseId(id, n)
    {
      assert x in IdsUpTo(id, n) <==> x.scenario == id && 1 <= x.ordinal <= n;
      assert x in IdsUpTo(id, n - 1) <==> x.scenario == id && 1 <= x.ordinal <= n - 1;
    }
  }

  lemma SpecIdsOfScenario(m: Manifest, ids: seq<CaseId>, s: ScenarioId)
    requires IdSet(ids) == SpecIds(m)
    ensures OfScenario(ids, s) == IdsOf(m, s)
  {
    forall id: CaseId
      ensures id in OfScenario(ids, s) <==> id in IdsOf(m, s)
    {
      assert id in ids <==> id in IdSet(ids);
      OwnScenario(m, id);
    }
  }

  /** An identifier belongs to the manifest exactly if it belongs to its own scenario. */
  lemma OwnScenario(m: Manifest, id: CaseId)
    ensures id in SpecIds(m) <==> id in IdsOf(m, id.scenario)
    ensures forall s :: id in IdsOf(m, s) ==> s == id.scenario
  {
    FirstThree(m, INDIVIDUAL);
    FirstThree(m, MIXED);
  }

  lemma FirstThree(m: Manifest, list: seq<ScenarioId>)
    requires |list| == 3
    ensures IdsOfFirst(m, list, 3) == IdsOf(m, list[0]) + IdsOf(m, list[1]) + IdsOf(m, list[2])
  {
    assert IdsOfFirst(m, list, 1) == IdsOf(m, list[0]);
    assert IdsOfFirst(m, list, 2) == IdsOf(m, list[0]) + IdsOf(m, list[1]);
  }

  /** How often each scenario is observed when the records are in bijection with the cases. */
  lemma ObservedCount(m: Manifest, records: seq<Record>, s: ScenarioId)
    requires InBijection(m, records)
    ensures CountScenario(IdList(records), s)
            == if s in INDIVIDUAL then |CasesFor(m, s)| else if s in MIXED then 1 else 0
  {
    CountIsSize(IdList(records), s);
    SpecIdsOfScenario(m, IdList(records), s);
    if s in INDIVIDUAL {
      IdsUpToSize(s, |CasesFor(m, s)|);
    }
  }

  /** What the final loop compares the manifest's counts with. */
  function ObservedFor(ids: seq<CaseId>, s: ScenarioId): int {
    if s == ValidRetry || s == GroundedQuery then 1 else CountScenario(ids, s)
  }

  /** The coverage comparison can never fail once it is reached. */
  lemma CoverageHolds(pinned: Body, m: Manifest, records: seq<Record>, s: Scenario)
    requires Derivable(pinned, m) && InBijection(m, records) && s in m.body.matrix.scenarios
    ensures s.id in SCENARIOS && s.count == ExpectedCount(m.body.rows, s.id) == ObservedFor(IdList(records), s.id)
  {
    assert s.id in Ids(m.body.matrix.scenarios);
    ObservedCount(m, records, s.id);
    MixedOccur(pinned, m);
  }

  /** A usable mixed scenario means that the manifest has something to mix. */
  lemma MixedOccur(pinned: Body, m: Manifest)
    requires Derivable(pinned, m)
    ensures HasUnpaired(m.body.rows)
    ensures forall id | id in MIXED :: ExpectedCount(m.body.rows, id) == 1
  {
    forall id | id in MIXED
      ensures ExpectedCount(m.body.rows, id) == 1
    {
      AcceptedScenario(m, id);
      assert MixedOk(m, id);
    }
    assert MixedOversized in MIXED && ExpectedCount(m.body.rows, MixedOversized) == 1;
  }

  function CountRetries(summaries: seq<Summary>): nat {
    if summaries == [] then 0
    else
      var last := summaries[|summaries| - 1];
      CountRetries(summaries[..|summaries| - 1]) + (if last.id.scenario in MIXED && last.retrySucceeded then 1 else 0)
  }

  function Summaries(m: Manifest, records: seq<Record>): (r: seq<Summary>)
    ensures |r| == |records|
  {
    seq(|records|, i requires 0 <= i < |records| => SummaryOf(m, records[i]))
  }

  function CountMixed(ids: seq<CaseId>): nat {
    if ids == [] then 0
    else CountMixed(ids[..|ids| - 1]) + (if ids[|ids| - 1].scenario in MIXED then 1 else 0)
  }

  lemma {:induction false} MixedAddUp(ids: seq<CaseId>)
    ensures CountMixed(ids) == CountScenario(ids, MixedOversized) + CountScenario(ids, MixedOcr)
                               + CountScenario(ids, MixedDuplicate)
  {
    if ids != [] {
      MixedAddUp(ids[..|ids| - 1]);
    }
  }

  ghost predicate RetriesSound(m: Manifest, records: seq<Record>) {
    forall r | r in records :: r.id.scenario in MIXED ==> SummaryOf(m, r).retrySucceeded
  }

  lemma {:induction false} RetriesAreMixed(m: Manifest, records: seq<Record>)
    requires RetriesSound(m, records)
    ensures CountRetries(Summaries(m, records)) == CountMixed(IdList(records))
  {
    if records != [] {
      var rest, last := records[..|records| - 1], records[|records| - 1];
      assert last in records && forall r | r in rest :: r in records;
      RetriesAreMixed(m, rest);
      var summaries, ids := Summaries(m, records), IdList(records);
      assert summaries[..|rest|] == Summaries(m, rest) && summaries[|rest|] == SummaryOf(m, last);
      assert ids[..|rest|] == IdList(rest) && ids[|rest|] == last.id;
    }
  }

  lemma RetryCounted(m: Manifest, record: Record)
    requires CaseValid(m, record) && forall id | id in MIXED :: MixedOk(m, id)
    ensures record.id.scenario in MIXED ==> SummaryOf(m, record).retrySucceeded
  {
    if record.id.scenario in MIXED {
      assert MixedOk(m, record.id.scenario);
      MixedHasRetry(m, record.id);
    }
  }

  lemma MixedHasRetry(m: Manifest, id: CaseId)
    requires MixedOk(m, id.scenario) && id.scenario in MIXED
    ensures SpecOf(m, id).retry.Some?
  {
  }

  lemma RetriesAreSound(m: Manifest, records: seq<Record>)
    requires forall r | r in records :: CaseValid(m, r)
    requires forall id | id in MIXED :: MixedOk(m, id)
    ensures RetriesSound(m, records)
  {
    forall r | r in records
      ensures r.id.scenario in MIXED ==> SummaryOf(m, r).retrySucceeded
    {
      RetryCounted(m, r);
    }
  }

  /** The check for one successful retry per mixed case can never fail once it is reached. */
  lemma RetriesHold(pinned: Body, m: Manifest, records: seq<Record>)
    requires Derivable(pinned, m) && InBijection(m, records) && forall r | r in records :: CaseValid(m, r)
    ensures CountRetries(Summaries(m, records)) == 3
  {
    RetriesAreSound(m, records);
    RetriesAreMixed(m, records);
    MixedAddUp(IdList(records));
    ObservedCount(m, records, MixedOversized);
    ObservedCount(m, records, MixedOcr);
    ObservedCount(m, records, MixedDuplicate);
  }

  method SummarizeCases(m: Manifest, records: seq<Record>) returns (summaries: Option<seq<Summary>>)
    ensures summaries.Some? <==> forall r | r in records :: CaseValid(m, r)
    ensures summaries.Some? ==> summaries.value == Summaries(m, records)
  {
    var done: seq<Summary> := [];
    for i := 0 to |records|
      invariant done == Summaries(m, records[..i])
      invariant forall r | r in records[..i] :: CaseValid(m, r)
    {
      assert records[i] in records && records[..i + 1] == records[..i] + [records[i]];
      if !CaseValid(m, records[i]) {
        return None;
      }
      done := done + [SummaryOf(m, records[i])];
    }
    assert records[..|records|] == records;
    return Some(done);
  }

  method CountMixedRetries(summaries: seq<Summary>) returns (n: nat)
    ensures n == CountRetries(summaries)
  {
    n := 0;
    for i := 0 to |summaries|
      invariant n == CountRetries(summaries[..i])
    {
      assert summaries[..i + 1][..i] == summaries[..i];
      if summaries[i].id.scenario in MIXED && summaries[i].retrySucceeded {
        n := n + 1;
      }
    }
    assert summaries[..|summaries|] == summaries;
  }

  method CountObserved(ids: seq<CaseId>) returns (counts: map<ScenarioId, nat>)
    ensures forall s :: (if s in counts then counts[s] else 0) == CountScenario(ids, s)
  {
    counts := map[];
    for i := 0 to |ids|
      invariant forall s :: (if s in counts then counts[s] else 0) == CountScenario(ids[..i], s)
    {
      assert ids[..i + 1][..i] == ids[..i];
      var s := ids[i].scenario;
      counts := counts[s := (if s in counts then counts[s] else 0) + 1];
    }
    assert ids[..|ids|] == ids;
  }

  /** The coverage table of a passing matrix: every scenario with its prescribed count. */
  ghost predicate Covers(m: Manifest, coverage: map<ScenarioId, int>, n: nat)
    requires n <= |m.body.matrix.scenarios|
  {
    && coverage.Keys == Ids(m.body.matrix.scenarios[..n])
    && forall s | s in coverage :: coverage[s] == ExpectedCount(m.body.rows, s)
  }

  /**
   `validate_robustness_matrix_evidence`. It passes exactly if the records are valid and in bijection
   with the cases of the manifest and the queries pass; its last two checks never fail.
   */
  method ValidateMatrix(pinned: Body, m: Manifest, records: seq<Record>, queriesPass: bool)
    returns (r: Result<map<ScenarioId, int>, MatrixError>)
    ensures r.Ok? <==>
              && Derivable(pinned, m) && (forall x | x in records :: CaseValid(m, x))
              && InBijection(m, records) && queriesPass
    ensures r.Ok? ==> r.value.Keys == SCENARIOS
                      && forall s | s in r.value :: r.value[s] == ExpectedCount(m.body.rows, s)
    ensures r != Err(MissingRetry) && r != Err(CountMismatch)
  {
    var specs := ExpectedCaseSpecs(pinned, m);
    if specs.None? {
      return Err(SpecsUnavailable);
    }
    var summaries := SummarizeCases(m, records);
    if summaries.None? {
      return Err(InvalidCase);
    }
    var ids := IdList(records);
    if exists i, j | 0 <= i < j < |ids| :: ids[i] == ids[j] {
      return Err(DuplicateCase);
    }
    if IdSet(ids) != specs.value.Keys {
      return Err(IncompleteCoverage);
    }
    if !queriesPass {
      return Err(QueriesRejected);
    }
    assert InBijection(m, records);
    RetriesHold(pinned, m, records);
    var retries := CountMixedRetries(summaries.value);
    if retries != |MIXED| {
      return Err(MissingRetry);
    }
    r := CompareCoverage(pinned, m, records);
  }

  /** The final loop over the scenarios of the manifest. */
  method CompareCoverage(pinned: Body, m: Manifest, records: seq<Record>)
    returns (r: Result<map<ScenarioId, int>, MatrixError>)
    requires Derivable(pinned, m) && InBijection(m, records)
    ensures r.Ok? && r.value.Keys == SCENARIOS
    ensures forall s | s in r.value :: r.value[s] == ExpectedCount(m.body.rows, s)
  {
    var observed := CountObserved(IdList(records));
    var coverage: map<ScenarioId, int> := map[];
    var scenarios := m.body.matrix.scenarios;
    for i := 0 to |scenarios|
      invariant Covers(m, coverage, i)
    {
      var s := scenarios[i];
      assert s in scenarios;
      CoverageHolds(pinned, m, records, s);
      var count := if s.id == ValidRetry || s.id == GroundedQuery then 1
                   else if s.id in observed then observed[s.id] else 0;
      if s.count != count {
        return Err(CountMismatch);
      }
      CoversStep(m, coverage, i);
      coverage := coverage[s.id := s.count];
    }
    assert scenarios[..|scenarios|] == scenarios;
    return Ok(coverage);
  }

  lemma CoversStep(m: Manifest, coverage: map<ScenarioId, int>, n: nat)
    requires n < |m.body.matrix.scenarios| && Covers(m, coverage, n)
    requires var s := m.body.matrix.scenarios[n]; s.count == ExpectedCount(m.body.rows, s.id)
    ensures Covers(m, coverage[m.body.matrix.scenarios[n].id := m.body.matrix.scenarios[n].count], n + 1)
  {
    var scenarios := m.body.matrix.scenarios;
    assert scenarios[..n + 1] == scenarios[..n] + [scenarios[n]];
    assert Ids(scenarios[..n + 1]) == Ids(scenarios[..n]) + {scenarios[n].id};
  }
}
