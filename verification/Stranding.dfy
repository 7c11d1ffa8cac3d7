/**
 A late CPU reference between two M4 claims. Every M4 claim has to run the controls of the first one, so
 an acceptance that changes in between leaves M4 unfinished for good, and M5 waits for M4.
 */
module Stranding {
  import opened Basics
  import opened Contract
  import opened Evidence
  import opened Campaign
  import opened AcceptedChain
  import opened Ledger
  import opened LedgerInvariant
  import opened StageOrder
  import opened GateStability
  import opened CampaignTheorems
  import opened Confirmation
  import opened LateReference

  // ---------------------------------------------------------------- when M4 may continue

  /** The treatment of the condition accepted through M3. */
  predicate ActiveWith(setup: Setup, completed: Completed, treatment: Treatment) {
    var active := ActiveCondition(setup, completed, 3);
    active.Ok? && active.value.Some? && active.value.value.treatment == treatment
  }

  /** Everything the M4 gate asks for but the controls. */
  predicate M4Due(setup: Setup, completed: Completed) {
    && M4OpeningSupported(setup, completed) == Ok(true)
    && M3TreatmentCompleted(setup, completed) == Ok(true)
    && (M3OpeningSupported(setup, completed) == Ok(true) ==> |RunsFor(completed, M3Profile)| == 1)
  }

  lemma GateM4Controls(setup: Setup, completed: Completed, replicate: int, spec: CellSpec) returns (t: Treatment)
    requires AuthorizeCellStart(setup, completed, replicate, spec) && spec.cell == M4
    ensures M4Due(setup, completed) && ActiveWith(setup, completed, t)
    ensures spec.controls == Controls(t.(batch := M4Partitions), false)
    ensures RunsFor(completed, M4) != [] ==> RunsFor(completed, M4)[0].controls == spec.controls
  {
    t := ActiveCondition(setup, completed, 3).value.value.treatment;
  }

  lemma M4Gate(setup: Setup, completed: Completed, replicate: int, spec: CellSpec)
    requires CacheGate(setup, completed) && ThreeValidRuns(RunsFor(completed, M2), false)
    requires RunsFor(completed, M5) == [] && spec.cell == M4
    requires RunsFor(completed, M4) != [] ==> RunsFor(completed, M4)[0].controls == spec.controls
    requires AuthorizeM4(setup, completed, spec.controls)
    ensures AuthorizeCellStart(setup, completed, replicate, spec)
  {
    M4IsLater(setup, completed, replicate, spec);
    LaterGate(setup, completed, replicate, spec);
  }

  lemma M4IsLater(setup: Setup, completed: Completed, replicate: int, spec: CellSpec)
    requires CacheGate(setup, completed) && ThreeValidRuns(RunsFor(completed, M2), false) && spec.cell == M4
    requires AuthorizeM4(setup, completed, spec.controls)
    ensures AuthorizeLater(setup, completed, replicate, spec, spec.controls)
  {
  }

  lemma M4Allowed(setup: Setup, completed: Completed, t: Treatment, controls: Controls)
    requires M4Due(setup, completed) && ActiveWith(setup, completed, t)
    requires controls == Controls(t.(batch := M4Partitions), false)
    ensures AuthorizeM4(setup, completed, controls)
  {
  }

  /** What is accepted through M3 determines the treatment of the active condition. */
  lemma ActiveIsInForce(setup: Setup, completed: Completed, t: Treatment) returns (accepted: seq<Accepted>)
    requires ActiveWith(setup, completed, t)
    ensures ThreeValidRuns(RunsFor(completed, M0), false)
    ensures QualifiedTreatments(setup, completed, 3) == Ok(accepted)
    ensures t == InForce(BaseTreatment(completed), accepted)
  {
    accepted := QualifiedTreatments(setup, completed, 3).value;
  }

  // ---------------------------------------------------------------- what the treatment tells

  ghost predicate Includes(accepted: seq<Accepted>, cell: Cell) {
    exists a | a in accepted :: a.cell == cell
  }

  ghost predicate M2Accepted(setup: Setup, completed: Completed) {
    var accepted := QualifiedTreatments(setup, completed, 2);
    accepted.Ok? && Includes(accepted.value, M2)
  }

  lemma M3AddsNeither(setup: Setup, completed: Completed, second: seq<Accepted>, third: seq<Accepted>, cell: Cell)
    requires StageM3(setup, completed, second) == Ok(third) && (cell == M1 || cell == M2)
    ensures Includes(third, cell) <==> Includes(second, cell)
  {
    assert third == second + M3Candidates(setup, completed, second);
    forall a | a in M3Candidates(setup, completed, second)
      ensures a.cell != cell
    {
    }
    forall a | a in second
      ensures a in third
    {
    }
  }

  lemma OwnedMeans(accepted: seq<Accepted>)
    ensures Owned(accepted, CacheKey) <==> Includes(accepted, M1)
    ensures Owned(accepted, DtypeKey) <==> Includes(accepted, M2)
  {
    forall a: Accepted
      ensures ControlChange(a.cell) == Some(CacheKey) <==> a.cell == M1
      ensures ControlChange(a.cell) == Some(DtypeKey) <==> a.cell == M2
    {
    }
  }

  /**
   The treatment accepted through M3 tells what is accepted through M2: its cache control whether M1 is,
   its dtype whether M2 is. Its batching is the baseline's.
   */
  lemma TreatmentTells(setup: Setup, completed: Completed, t: Treatment) returns (second: seq<Accepted>)
    requires SingleVariable(setup) && WellKeyed(completed) && ActiveWith(setup, completed, t)
    ensures RunsFor(completed, M0) != [] && t.batch == BaseTreatment(completed).batch
    ensures QualifiedTreatments(setup, completed, 2) == Ok(second)
    ensures t.disableCache != BaseTreatment(completed).disableCache <==> Includes(second, M1)
    ensures t.dtype != BaseTreatment(completed).dtype <==> Includes(second, M2)
  {
    var accepted := ActiveIsInForce(setup, completed, t);
    AcceptedTreatmentsChain(setup, completed, 3, accepted);
    AcceptedChangesAddUp(BaseTreatment(completed), accepted, 3);
    OwnedMeans(accepted);
    second := QualifiedStep(setup, completed, 3, accepted);
    M3AddsNeither(setup, completed, second, accepted, M1);
    M3AddsNeither(setup, completed, second, accepted, M2);
  }

  /** An accepted entry carries the controls of its cell's first run. */
  function EntryIf(completed: Completed, cell: Cell, accepted: bool): seq<Accepted> {
    if accepted && RunsFor(completed, cell) != [] then
      [Accepted(cell, RunsFor(completed, cell)[0].controls.treatment)]
    else []
  }

  lemma NoneIncluded(one: seq<Accepted>, cell: Cell, completed: Completed, other: Cell)
    requires one == [] || (RunsFor(completed, cell) != []
                           && one == [Accepted(cell, RunsFor(completed, cell)[0].controls.treatment)])
    ensures one == EntryIf(completed, cell, Includes(one, cell))
    ensures other != cell ==> !Includes(one, other)
  {
    if one != [] {
      assert one[0] in one;
    }
  }

  lemma IncludesSum(a: seq<Accepted>, b: seq<Accepted>, cell: Cell)
    ensures Includes(a + b, cell) <==> Includes(a, cell) || Includes(b, cell)
  {
    forall x | x in a || x in b
      ensures x in a + b
    {
    }
  }

  /** What is accepted through M2 is determined by which of M1 and M2 are. */
  lemma ThroughM2Is(setup: Setup, completed: Completed, second: seq<Accepted>)
    requires ThreeValidRuns(RunsFor(completed, M0), false) && QualifiedTreatments(setup, completed, 2) == Ok(second)
    ensures second == EntryIf(completed, M1, Includes(second, M1)) + EntryIf(completed, M2, Includes(second, M2))
  {
    var first := QualifiedStep(setup, completed, 2, second);
    var none := QualifiedStep(setup, completed, 1, first);
    FirstStage(setup, completed, none, first);
    var more := SecondStage(setup, completed, first, second);
    NoneIncluded(first, M1, completed, M2);
    NoneIncluded(more, M2, completed, M1);
    IncludesSum(first, more, M1);
    IncludesSum(first, more, M2);
  }

  lemma SecondStage(setup: Setup, completed: Completed, first: seq<Accepted>, second: seq<Accepted>)
    returns (more: seq<Accepted>)
    requires AddTreatmentStage(setup, completed, 2, first) == Ok(second)
    ensures second == first + more
    ensures more == [] || (RunsFor(completed, M2) != []
                           && more == [Accepted(M2, RunsFor(completed, M2)[0].controls.treatment)])
  {
    more := if second == first then [] else InForceCandidate(setup, completed, M2, first);
  }

  /** Equal treatments through M3 over the same runs mean equal acceptance through M2. */
  lemma SameThroughM2(setup: Setup, a: Completed, b: Completed, t: Treatment)
    requires SingleVariable(setup) && WellKeyed(a) && WellKeyed(b)
    requires ActiveWith(setup, a, t) && ActiveWith(setup, b, t)
    requires RunsFor(b, M0) == RunsFor(a, M0) && RunsFor(b, M1) == RunsFor(a, M1) && RunsFor(b, M2) == RunsFor(a, M2)
    ensures QualifiedTreatments(setup, a, 2).Ok?
    ensures QualifiedTreatments(setup, b, 2) == QualifiedTreatments(setup, a, 2)
  {
    var first := TreatmentTells(setup, a, t);
    var second := TreatmentTells(setup, b, t);
    var accepted := ActiveIsInForce(setup, a, t);
    SameBase(a, b);
    ThroughM2Is(setup, a, first);
    ThroughM2Is(setup, b, second);
  }

  lemma SameBase(a: Completed, b: Completed)
    requires RunsFor(a, M0) != [] && RunsFor(b, M0) == RunsFor(a, M0)
    ensures BaseTreatment(b) == BaseTreatment(a)
  {
  }

  /** A change in the acceptance of M2 changes the treatment through M3. */
  lemma AcceptanceChanges(setup: Setup, a: Completed, b: Completed, t: Treatment)
    requires SingleVariable(setup) && WellKeyed(a) && WellKeyed(b) && ActiveWith(setup, a, t)
    requires RunsFor(b, M0) == RunsFor(a, M0) && M2Accepted(setup, b) != M2Accepted(setup, a)
    ensures !ActiveWith(setup, b, t)
  {
    var first := TreatmentTells(setup, a, t);
    if ActiveWith(setup, b, t) {
      var second := TreatmentTells(setup, b, t);
      SameBase(a, b);
    }
  }

  // ---------------------------------------------------------------- two M4 claims

  lemma M4At(setup: Setup, ledger: seq<Claim>, i: int) returns (t: Treatment)
    requires LedgerInv(setup, ledger) && 0 <= i < |ledger| && ledger[i].cell == M4
    ensures ledger[i].spec.cell == M4 && WellKeyed(SeenBy(setup, ledger, i))
    ensures ActiveWith(setup, SeenBy(setup, ledger, i), t)
    ensures ledger[i].spec.controls == Controls(t.(batch := M4Partitions), false)
  {
    assert GatedAt(setup, ledger, i) && ClaimInRange(ledger[i]);
    SeenWellKeyed(setup, ledger, i);
    t := GateM4Controls(setup, SeenBy(setup, ledger, i), ledger[i].replicate, ledger[i].spec);
  }

  lemma M4SpecsEqual(setup: Setup, ledger: seq<Claim>, i: int, j: int)
    requires LedgerInv(setup, ledger) && 0 <= i < j < |ledger| && ledger[i].cell == M4 && ledger[j].cell == M4
    ensures ledger[j].spec.controls == ledger[i].spec.controls
  {
    CellControlsFixed(setup, ledger, i, j);
    RunHasSpecControls(setup, ledger[i]);
    assert ClaimInRange(ledger[i]) && ClaimInRange(ledger[j]);
  }

  lemma BatchCancels(s: Treatment, t: Treatment)
    requires s.batch == t.batch
    ensures Controls(s.(batch := M4Partitions), false) == Controls(t.(batch := M4Partitions), false) <==> s == t
  {
  }

  /** At every M4 claim the condition accepted through M3 has the same treatment. */
  lemma M4ClaimsAgree(setup: Setup, ledger: seq<Claim>, i: int, j: int, t: Treatment)
    requires SingleVariable(setup) && LedgerInv(setup, ledger) && 0 <= i < j < |ledger|
    requires ledger[i].cell == M4 && ledger[j].cell == M4 && ActiveWith(setup, SeenBy(setup, ledger, i), t)
    ensures ActiveWith(setup, SeenBy(setup, ledger, j), t)
  {
    var s := M4At(setup, ledger, i);
    var u := M4At(setup, ledger, j);
    var first := TreatmentTells(setup, SeenBy(setup, ledger, i), s);
    var second := TreatmentTells(setup, SeenBy(setup, ledger, j), u);
    BaselineStays(setup, ledger, i, j);
    SameBase(SeenBy(setup, ledger, i), SeenBy(setup, ledger, j));
    M4SpecsEqual(setup, ledger, i, j);
    BatchCancels(s, u);
  }

  /** The runs of M4 that evidence later than an M4 claim holds carry that claim's controls. */
  lemma M4RunControls(setup: Setup, ledger: seq<Claim>, i: int, j: int)
    requires LedgerInv(setup, ledger) && Visible(setup, ledger, j) && 0 <= i < j && ledger[i].cell == M4
    ensures RunsFor(SeenBy(setup, ledger, j), M4) != []
    ensures RunsFor(SeenBy(setup, ledger, j), M4)[0].controls == ledger[i].spec.controls
  {
    EarlierCellSeen(setup, ledger, i, j);
    var m := FirstSeen(setup, ledger, j, M4);
    RunHasSpecControls(setup, ledger[m]);
    assert ClaimInRange(ledger[m]) && ClaimInRange(ledger[i]);
    if i < m {
      M4SpecsEqual(setup, ledger, i, m);
    } else if m < i {
      M4SpecsEqual(setup, ledger, m, i);
    }
  }

  // ---------------------------------------------------------------- what stays fixed from M4 on

  /** From an M4 claim on, M0, M1 and M2 have run for good. */
  lemma EarlyRunsStay(setup: Setup, ledger: seq<Claim>, i: int, j: int)
    requires LedgerInv(setup, ledger) && Visible(setup, ledger, j)
    requires 0 <= i <= j && i < |ledger| && ledger[i].cell == M4
    ensures RunsFor(SeenBy(setup, ledger, j), M0) == RunsFor(SeenBy(setup, ledger, i), M0)
    ensures RunsFor(SeenBy(setup, ledger, j), M1) == RunsFor(SeenBy(setup, ledger, i), M1)
    ensures RunsFor(SeenBy(setup, ledger, j), M2) == RunsFor(SeenBy(setup, ledger, i), M2)
    ensures ThreeValidRuns(RunsFor(SeenBy(setup, ledger, j), M0), false)
    ensures ThreeValidRuns(RunsFor(SeenBy(setup, ledger, j), M2), false)
  {
    M4Evidence(setup, ledger, i);
    SeenGrows(setup, ledger, i, j);
    FullCellStays(SeenBy(setup, ledger, i), SeenBy(setup, ledger, j), M0);
    FullCellStays(SeenBy(setup, ledger, i), SeenBy(setup, ledger, j), M2);
    forall n | i <= n < j
      ensures ledger[n].cell != M1
    {
      if i < n {
        NoM1Later(setup, ledger, i, n);
      }
    }
    UntouchedCell(setup, ledger, i, j, M1);
  }

  lemma AcceptanceAgrees(setup: Setup, a: Completed, b: Completed)
    requires RunsFor(b, M0) == RunsFor(a, M0) && RunsFor(b, M1) == RunsFor(a, M1) && RunsFor(b, M2) == RunsFor(a, M2)
    requires RunsFor(b, CpuReference) == RunsFor(a, CpuReference)
    ensures M2Accepted(setup, b) == M2Accepted(setup, a)
  {
    AgreeThroughM2(a, b);
    QualifiedAgree(setup, a, b, 2);
  }

  lemma ReferenceFixed(setup: Setup, ledger: seq<Claim>, r: int, j: int, k: int)
    requires LedgerInv(setup, ledger) && Visible(setup, ledger, k) && 0 <= r < j <= k && ledger[r].cell == CpuReference
    ensures RunsFor(SeenBy(setup, ledger, k), CpuReference) == RunsFor(SeenBy(setup, ledger, j), CpuReference)
  {
    ReferenceSeen(setup, ledger, r, j);
    ReferenceSeen(setup, ledger, r, k);
  }

  /** After an M4 claim, what is accepted through M2 changes with the arrival of the reference only. */
  lemma EarlyAgree(setup: Setup, ledger: seq<Claim>, i: int, j: int, k: int)
    requires LedgerInv(setup, ledger) && Visible(setup, ledger, k) && 0 <= i <= j <= k && i < |ledger|
    requires ledger[i].cell == M4
    requires RunsFor(SeenBy(setup, ledger, k), CpuReference) == RunsFor(SeenBy(setup, ledger, j), CpuReference)
    ensures Agree(SeenBy(setup, ledger, j), SeenBy(setup, ledger, k), 2)
  {
    EarlyRunsStay(setup, ledger, i, j);
    EarlyRunsStay(setup, ledger, i, k);
    AgreeThroughM2(SeenBy(setup, ledger, j), SeenBy(setup, ledger, k));
  }

  lemma AgreeThroughM3(a: Completed, b: Completed)
    requires Agree(a, b, 2) && RunsFor(b, M3A) == RunsFor(a, M3A) && RunsFor(b, M3B) == RunsFor(a, M3B)
    ensures Agree(a, b, 3)
  {
    forall cell: Cell | InScope(cell, 3)
      ensures RunsFor(b, cell) == RunsFor(a, cell)
    {
      assert InScope(cell, 2) || cell == M3A || cell == M3B;
    }
  }

  /** If no M3 cell is claimed and the reference is the same, so is the condition accepted through M3. */
  lemma ConditionKept(setup: Setup, ledger: seq<Claim>, i: int, j: int, k: int)
    requires LedgerInv(setup, ledger) && Visible(setup, ledger, k) && 0 <= i <= j <= k && i < |ledger|
    requires ledger[i].cell == M4
    requires RunsFor(SeenBy(setup, ledger, k), CpuReference) == RunsFor(SeenBy(setup, ledger, j), CpuReference)
    requires forall n | j <= n < k :: ledger[n].cell !in M3_CELLS
    ensures ActiveCondition(setup, SeenBy(setup, ledger, k), 3) == ActiveCondition(setup, SeenBy(setup, ledger, j), 3)
  {
    EarlyAgree(setup, ledger, i, j, k);
    SameConditionThroughM3(setup, ledger, j, k);
  }

  lemma SameConditionThroughM3(setup: Setup, ledger: seq<Claim>, j: int, k: int)
    requires LedgerInv(setup, ledger) && Visible(setup, ledger, k) && 0 <= j <= k
    requires Agree(SeenBy(setup, ledger, j), SeenBy(setup, ledger, k), 2)
    requires forall n | j <= n < k :: ledger[n].cell !in M3_CELLS
    ensures ActiveCondition(setup, SeenBy(setup, ledger, k), 3) == ActiveCondition(setup, SeenBy(setup, ledger, j), 3)
  {
    UntouchedCell(setup, ledger, j, k, M3A);
    UntouchedCell(setup, ledger, j, k, M3B);
    AgreeThroughM3(SeenBy(setup, ledger, j), SeenBy(setup, ledger, k));
    ActiveAgree(setup, SeenBy(setup, ledger, j), SeenBy(setup, ledger, k), 3);
  }

  /** Equal acceptance through M2 over the same runs opens M3 equally. */
  lemma OpeningSame(setup: Setup, a: Completed, b: Completed)
    requires QualifiedTreatments(setup, b, 2) == QualifiedTreatments(setup, a, 2)
    requires RunsFor(b, M0) == RunsFor(a, M0) && RunsFor(b, M1) == RunsFor(a, M1) && RunsFor(b, M2) == RunsFor(a, M2)
    ensures M3OpeningSupported(setup, b) == M3OpeningSupported(setup, a)
  {
    var qualified := QualifiedTreatments(setup, a, 2);
    if qualified.Ok? {
      QualifiedScope(setup, a, 2, qualified.value);
      var cell := LastCell(qualified.value);
      assert TreatmentStage(cell) <= 2;
      assert cell == M0 || cell == M1 || cell == M2;
      ActiveFromSame(a, b, qualified.value);
    }
  }

  lemma ActiveFromSame(a: Completed, b: Completed, accepted: seq<Accepted>)
    requires RunsFor(b, LastCell(accepted)) == RunsFor(a, LastCell(accepted))
    ensures ActiveFrom(b, accepted) == ActiveFrom(a, accepted)
  {
  }

  /** While what is accepted through M2 is what it was at an M4 claim, no M3 cell is claimed. */
  lemma NoM3While(setup: Setup, ledger: seq<Claim>, i: int, n: int)
    requires LedgerInv(setup, ledger) && 0 <= i < n < |ledger| && ledger[i].cell == M4
    requires QualifiedTreatments(setup, SeenBy(setup, ledger, n), 2)
             == QualifiedTreatments(setup, SeenBy(setup, ledger, i), 2)
    ensures ledger[n].cell !in M3_CELLS
  {
    if ledger[n].cell in M3_CELLS {
      OpeningKept(setup, ledger, i, n);
      GateM3Opened(setup, ledger, n);
      ResolvedStaysClosed(setup, ledger, i, n);
    }
  }

  lemma OpeningKept(setup: Setup, ledger: seq<Claim>, i: int, n: int)
    requires LedgerInv(setup, ledger) && 0 <= i < n < |ledger| && ledger[i].cell == M4
    requires QualifiedTreatments(setup, SeenBy(setup, ledger, n), 2)
             == QualifiedTreatments(setup, SeenBy(setup, ledger, i), 2)
    ensures M3OpeningSupported(setup, SeenBy(setup, ledger, n)) == M3OpeningSupported(setup, SeenBy(setup, ledger, i))
  {
    EarlyRunsStay(setup, ledger, i, n);
    OpeningSame(setup, SeenBy(setup, ledger, i), SeenBy(setup, ledger, n));
  }

  /** A treatment that the condition has at an M4 claim and again later, it has at every claim in between. */
  lemma TreatmentHeldBetween(setup: Setup, ledger: seq<Claim>, i: int, j: int, k: int, t: Treatment)
    requires SingleVariable(setup) && LedgerInv(setup, ledger) && 0 <= i < j <= k < |ledger| && ledger[i].cell == M4
    requires ActiveWith(setup, SeenBy(setup, ledger, i), t) && ActiveWith(setup, SeenBy(setup, ledger, k), t)
    ensures ActiveWith(setup, SeenBy(setup, ledger, j), t)
  {
    if NoReferenceBetween(ledger, i, j) {
      HeldWhileSettled(setup, ledger, i, j, t);
    } else {
      var r :| i <= r < j && ledger[r].cell == CpuReference;
      HeldAfter(setup, ledger, i, r, j, k, t);
    }
  }

  lemma SettledBefore(setup: Setup, ledger: seq<Claim>, i: int, n: int, j: int)
    requires 0 <= i <= n <= j <= |ledger| && ReferenceSettled(setup, ledger, i, j)
    ensures M3Shut(setup, ledger, i, n)
  {
  }

  lemma NoM3Between(setup: Setup, ledger: seq<Claim>, i: int, j: int)
    requires LedgerInv(setup, ledger) && 0 <= i < j < |ledger| && ledger[i].cell == M4
    requires ReferenceSettled(setup, ledger, i, j)
    ensures forall n | i <= n < j :: ledger[n].cell !in M3_CELLS
  {
    forall n | i <= n < j
      ensures ledger[n].cell !in M3_CELLS
    {
      if i < n {
        SettledBefore(setup, ledger, i, n, j);
        NoM3AfterM4(setup, ledger, i, n);
      }
    }
  }

  /** While the reference is settled the condition accepted through M3 keeps its treatment. */
  lemma HeldWhileSettled(setup: Setup, ledger: seq<Claim>, i: int, j: int, t: Treatment)
    requires LedgerInv(setup, ledger) && 0 <= i < j < |ledger| && ledger[i].cell == M4
    requires ActiveWith(setup, SeenBy(setup, ledger, i), t) && ReferenceSettled(setup, ledger, i, j)
    ensures ActiveWith(setup, SeenBy(setup, ledger, j), t)
  {
    NoM3Between(setup, ledger, i, j);
    EarlyStagesFixed(setup, ledger, i, j);
    SameConditionThroughM3(setup, ledger, i, j);
  }

  lemma HeldAfter(setup: Setup, ledger: seq<Claim>, i: int, r: int, j: int, k: int, t: Treatment)
    requires SingleVariable(setup) && LedgerInv(setup, ledger) && 0 <= i < r < j <= k < |ledger| && ledger[i].cell == M4
    requires ledger[r].cell == CpuReference
    requires ActiveWith(setup, SeenBy(setup, ledger, i), t) && ActiveWith(setup, SeenBy(setup, ledger, k), t)
    ensures ActiveWith(setup, SeenBy(setup, ledger, j), t)
  {
    EarlyRunsStay(setup, ledger, i, k);
    SeenWellKeyed(setup, ledger, i);
    SeenWellKeyed(setup, ledger, k);
    SameThroughM2(setup, SeenBy(setup, ledger, i), SeenBy(setup, ledger, k), t);
    forall n | j <= n < k
      ensures ledger[n].cell !in M3_CELLS
    {
      ReferenceFixed(setup, ledger, r, n, k);
      EarlyAgree(setup, ledger, i, n, k);
      QualifiedAgree(setup, SeenBy(setup, ledger, n), SeenBy(setup, ledger, k), 2);
      NoM3While(setup, ledger, i, n);
    }
    ReferenceFixed(setup, ledger, r, j, k);
    ConditionKept(setup, ledger, i, j, k);
  }

  // ---------------------------------------------------------------- the exact condition

  lemma CommonGateStays(setup: Setup, ledger: seq<Claim>, i: int, j: int)
    requires LedgerInv(setup, ledger) && Visible(setup, ledger, j) && 0 <= i < j && ledger[i].cell == M4
    requires ActiveCondition(setup, SeenBy(setup, ledger, j), 2).Ok?
    ensures CacheGate(setup, SeenBy(setup, ledger, j))
  {
    M4Evidence(setup, ledger, i);
    EarlyRunsStay(setup, ledger, i, j);
    ActiveThroughM1(setup, SeenBy(setup, ledger, j));
    CacheGateStays(setup, SeenBy(setup, ledger, i), SeenBy(setup, ledger, j));
  }

  lemma DueHasActive(setup: Setup, completed: Completed)
    requires M4Due(setup, completed)
    ensures ActiveCondition(setup, completed, 2).Ok?
  {
  }

  /**
   After an M4 claim, a further M4 claim is admissible if and only if M4 is still due and the condition
   accepted through M3 still has the treatment it had at that claim.
   */
  lemma M4ContinuesExactly(setup: Setup, ledger: seq<Claim>, i: int, j: int, before: Treatment)
    requires SingleVariable(setup) && LedgerInv(setup, ledger) && Visible(setup, ledger, j)
    requires 0 <= i < j && ledger[i].cell == M4 && ActiveWith(setup, SeenBy(setup, ledger, i), before)
    requires RunsFor(SeenBy(setup, ledger, j), M5) == []
    ensures var seen := SeenBy(setup, ledger, j);
            (exists replicate, spec: CellSpec :: spec.cell == M4 && AuthorizeCellStart(setup, seen, replicate, spec))
            <==> M4Due(setup, seen) && ActiveWith(setup, seen, before)
  {
    var seen := SeenBy(setup, ledger, j);
    if M4Due(setup, seen) && ActiveWith(setup, seen, before) {
      M4Again(setup, ledger, i, j, before);
    }
    forall replicate, spec: CellSpec | spec.cell == M4 && AuthorizeCellStart(setup, seen, replicate, spec)
      ensures M4Due(setup, seen) && ActiveWith(setup, seen, before)
    {
      M4AgainNeeds(setup, ledger, i, j, before, replicate, spec);
    }
  }

  lemma ControlsAt(setup: Setup, ledger: seq<Claim>, i: int, before: Treatment)
    requires LedgerInv(setup, ledger) && 0 <= i < |ledger| && ledger[i].cell == M4
    requires ActiveWith(setup, SeenBy(setup, ledger, i), before)
    ensures ledger[i].spec.controls == Controls(before.(batch := M4Partitions), false)
    ensures WellKeyed(SeenBy(setup, ledger, i))
  {
    var t := M4At(setup, ledger, i);
  }

  lemma M4Again(setup: Setup, ledger: seq<Claim>, i: int, j: int, before: Treatment)
    requires LedgerInv(setup, ledger) && Visible(setup, ledger, j)
    requires 0 <= i < j && ledger[i].cell == M4 && ActiveWith(setup, SeenBy(setup, ledger, i), before)
    requires RunsFor(SeenBy(setup, ledger, j), M5) == []
    requires M4Due(setup, SeenBy(setup, ledger, j)) && ActiveWith(setup, SeenBy(setup, ledger, j), before)
    ensures exists replicate, spec: CellSpec ::
              spec.cell == M4 && AuthorizeCellStart(setup, SeenBy(setup, ledger, j), replicate, spec)
  {
    var seen := SeenBy(setup, ledger, j);
    var spec := CellSpec(M4, 1, Controls(before.(batch := M4Partitions), false), None);
    ControlsAt(setup, ledger, i, before);
    M4RunControls(setup, ledger, i, j);
    DueHasActive(setup, seen);
    CommonGateStays(setup, ledger, i, j);
    EarlyRunsStay(setup, ledger, i, j);
    M4Allowed(setup, seen, before, spec.controls);
    M4Gate(setup, seen, 1, spec);
  }

  lemma M4AgainNeeds(setup: Setup, ledger: seq<Claim>, i: int, j: int, before: Treatment, replicate: int,
                     spec: CellSpec)
    requires SingleVariable(setup) && LedgerInv(setup, ledger) && Visible(setup, ledger, j)
    requires 0 <= i < j && ledger[i].cell == M4 && ActiveWith(setup, SeenBy(setup, ledger, i), before)
    requires spec.cell == M4 && AuthorizeCellStart(setup, SeenBy(setup, ledger, j), replicate, spec)
    ensures M4Due(setup, SeenBy(setup, ledger, j)) && ActiveWith(setup, SeenBy(setup, ledger, j), before)
  {
    var a, b := SeenBy(setup, ledger, i), SeenBy(setup, ledger, j);
    var t := GateM4Controls(setup, b, replicate, spec);
    ControlsAt(setup, ledger, i, before);
    SeenWellKeyed(setup, ledger, j);
    var first := TreatmentTells(setup, a, before);
    var second := TreatmentTells(setup, b, t);
    EarlyRunsStay(setup, ledger, i, j);
    SameBase(a, b);
    M4RunControls(setup, ledger, i, j);
    BatchCancels(before, t);
  }

  // ---------------------------------------------------------------- stranded

  lemma AgreeOnM4(setup: Setup, a: Completed, b: Completed)
    requires Agree(a, b, 4)
    ensures RunsFor(b, M4) == RunsFor(a, M4)
    ensures M4OpeningSupported(setup, b) == M4OpeningSupported(setup, a)
  {
    assert InScope(M4, 4);
    AgreeBelow(a, b, 3, 4);
    ActiveAgree(setup, a, b, 3);
  }

  lemma FirstM5NeedsM4(setup: Setup, ledger: seq<Claim>, k: int)
    requires LedgerInv(setup, ledger) && 0 <= k < |ledger| && ledger[k].cell == M5 && ledger[k].replicate == 1
    requires M4OpeningSupported(setup, SeenBy(setup, ledger, k)) == Ok(true)
    ensures ThreeValidRuns(RunsFor(SeenBy(setup, ledger, k), M4), true)
  {
    assert GatedAt(setup, ledger, k) && ClaimInRange(ledger[k]);
    GateLater(setup, SeenBy(setup, ledger, k), 1, ledger[k].spec);
  }

  /** No M5 replicate is claimed while M4 is open and has not succeeded three times. */
  lemma M5NeedsM4(setup: Setup, ledger: seq<Claim>, k: int)
    requires LedgerInv(setup, ledger) && 0 <= k < |ledger| && ledger[k].cell == M5
    requires M4OpeningSupported(setup, SeenBy(setup, ledger, k)) == Ok(true)
    ensures ThreeValidRuns(RunsFor(SeenBy(setup, ledger, k), M4), true)
  {
    assert ClaimInRange(ledger[k]);
    if ledger[k].replicate == 1 {
      FirstM5NeedsM4(setup, ledger, k);
    } else {
      ReplicatesDense(setup, ledger, k);
      var h := SeenOnly(setup, ledger, k, (M5, 1));
      AcceptanceFixedAfterM5(setup, ledger, h, k);
      AgreeOnM4(setup, SeenBy(setup, ledger, h), SeenBy(setup, ledger, k));
      FirstM5NeedsM4(setup, ledger, h);
    }
  }

  /** Once the treatment through M3 has changed after an M4 claim, M4 is never claimed again. */
  lemma M4NotAgain(setup: Setup, ledger: seq<Claim>, i: int, j: int, k: int, t: Treatment)
    requires SingleVariable(setup) && LedgerInv(setup, ledger) && 0 <= i < j <= k < |ledger| && ledger[i].cell == M4
    requires ActiveWith(setup, SeenBy(setup, ledger, i), t) && !ActiveWith(setup, SeenBy(setup, ledger, j), t)
    ensures ledger[k].cell != M4
  {
    if ledger[k].cell == M4 {
      M4ClaimsAgree(setup, ledger, i, k, t);
      TreatmentHeldBetween(setup, ledger, i, j, k, t);
    }
  }

  /**
   In every run: when the condition accepted through M3 has lost the treatment it had at an M4 claim, M4 is
   never claimed again; and unless three M4 runs had completed by then, no M5 is claimed while M4 is open.
   */
  lemma StrandedForGood(setup: Setup, states: seq<State>, steps: seq<Step>, n: nat, i: int, j: int, k: int,
                        t: Treatment)
    requires SingleVariable(setup) && IsRun(setup, states, steps) && n < |states|
    requires 0 <= i < j <= k < |states[n].ledger| && states[n].ledger[i].cell == M4
    requires ActiveWith(setup, SeenBy(setup, states[n].ledger, i), t)
    requires !ActiveWith(setup, SeenBy(setup, states[n].ledger, j), t)
    ensures states[n].ledger[k].cell != M4
    ensures states[n].ledger[k].cell == M5 && M4OpeningSupported(setup, SeenBy(setup, states[n].ledger, k)) == Ok(true)
            ==> |RunsFor(SeenBy(setup, states[n].ledger, j), M4)| == 3
  {
    RunKeepsInvariant(setup, states, steps, n);
    StrandedAt(setup, states[n].ledger, i, j, k, t);
  }

  lemma StrandedAt(setup: Setup, ledger: seq<Claim>, i: int, j: int, k: int, t: Treatment)
    requires SingleVariable(setup) && LedgerInv(setup, ledger) && 0 <= i < j <= k < |ledger| && ledger[i].cell == M4
    requires ActiveWith(setup, SeenBy(setup, ledger, i), t) && !ActiveWith(setup, SeenBy(setup, ledger, j), t)
    ensures ledger[k].cell != M4
    ensures ledger[k].cell == M5 && M4OpeningSupported(setup, SeenBy(setup, ledger, k)) == Ok(true)
            ==> |RunsFor(SeenBy(setup, ledger, j), M4)| == 3
  {
    M4NotAgain(setup, ledger, i, j, k, t);
    forall m | j <= m < k
      ensures ledger[m].cell != M4
    {
      M4NotAgain(setup, ledger, i, j, m, t);
    }
    UntouchedCell(setup, ledger, j, k, M4);
    if ledger[k].cell == M5 && M4OpeningSupported(setup, SeenBy(setup, ledger, k)) == Ok(true) {
      M5NeedsM4(setup, ledger, k);
    }
  }

  /** The treatment changes only with the arrival of a reference that makes M1, M2 or an M3 alternative count. */
  lemma TreatmentNeedsReference(setup: Setup, ledger: seq<Claim>, i: int, j: int, t: Treatment) returns (r: int)
    requires LedgerInv(setup, ledger) && 0 <= i < j < |ledger| && ledger[i].cell == M4
    requires ActiveWith(setup, SeenBy(setup, ledger, i), t) && !ActiveWith(setup, SeenBy(setup, ledger, j), t)
    ensures i < r < j && ledger[r].cell == CpuReference && !ReferenceFinal(SeenBy(setup, ledger, i))
  {
    if NoReferenceBetween(ledger, i, j) {
      HeldWhileSettled(setup, ledger, i, j, t);
    }
    r :| i <= r < j && ledger[r].cell == CpuReference;
    if ReferenceFinal(SeenBy(setup, ledger, i)) {
      FinalReferenceIsSettled(setup, ledger, i, j);
      HeldWhileSettled(setup, ledger, i, j, t);
    }
  }
}
