/**
 The CPU reference may arrive at any time after the baseline, and it can change what was accepted.
 Exactly when an admitted M4 closes the M3 path for good.
 */
module LateReference {
  import opened Basics
  import opened Contract
  import opened Evidence
  import opened Campaign
  import opened AcceptedChain
  import opened Ledger
  import opened LedgerInvariant
  import opened Reachability
  import opened StageOrder
  import opened GateStability

  const M3_CELLS: set<Cell> := {M3Profile, M3A, M3B}

  // ---------------------------------------------------------------- when the reference is final

  predicate AnyOom(runs: seq<Run>) {
    exists r | r in runs :: r.status == Oom
  }

  /** No later claim can supply a parity reference or replace the present one. */
  predicate ReferenceFinal(completed: Completed) {
    || FirstCorrect(RunsFor(completed, M0)).Some?
    || RunsFor(completed, CpuReference) != []
    || !AnyOom(RunsFor(completed, M0))
  }

  /** Before M5 the CPU reference can still be claimed exactly when there is an M0 OOM and it has not run. */
  lemma ReferenceStillOpen(setup: Setup, completed: Completed)
    requires ThreeValidRuns(RunsFor(completed, M0), false) && RunsFor(completed, M5) == []
    ensures (exists spec: CellSpec :: spec.cell == CpuReference && AuthorizeCellStart(setup, completed, 1, spec)
                                      && RunsFor(completed, CpuReference) == [])
            <==> RunsFor(completed, CpuReference) == [] && AnyOom(RunsFor(completed, M0))
  {
    if RunsFor(completed, CpuReference) == [] && AnyOom(RunsFor(completed, M0)) {
      var spec := CellSpec(CpuReference, 1, Controls(Treatment(CpuOnnxFp32, false, None, Fixed32), false), None);
      CpuGate(setup, completed, spec);
    }
    forall spec: CellSpec | spec.cell == CpuReference && AuthorizeCellStart(setup, completed, 1, spec)
      ensures AnyOom(RunsFor(completed, M0))
    {
      GateCpu(setup, completed, 1, spec);
    }
  }

  lemma CpuGate(setup: Setup, completed: Completed, spec: CellSpec)
    requires ThreeValidRuns(RunsFor(completed, M0), false) && AnyOom(RunsFor(completed, M0))
    requires RunsFor(completed, M5) == [] && RunsFor(completed, CpuReference) == [] && spec.cell == CpuReference
    ensures AuthorizeCellStart(setup, completed, 1, spec)
  {
    assert AuthorizeCpu(completed);
  }

  lemma FinalReferenceIsSettled(setup: Setup, ledger: seq<Claim>, i: int, j: int)
    requires LedgerInv(setup, ledger) && 0 <= i < j < |ledger|
    requires ledger[i].cell != M0 && ledger[i].cell != CpuReference
    requires ReferenceFinal(SeenBy(setup, ledger, i))
    ensures ReferenceSettled(setup, ledger, i, j)
  {
    forall n | i <= n < j && FirstCorrect(RunsFor(SeenBy(setup, ledger, i), M0)).None?
      ensures ledger[n].cell != CpuReference
    {
      if ledger[n].cell == CpuReference {
        assert GatedAt(setup, ledger, n) && ClaimInRange(ledger[n]);
        GateCpu(setup, SeenBy(setup, ledger, n), ledger[n].replicate, ledger[n].spec);
        BaselineStays(setup, ledger, i, n);
        FullCellNotAdmitted(setup, ledger, i, n);
      }
    }
  }

  // ---------------------------------------------------------------- when M3 can re-open

  /** A settled claim of the CPU reference that the authority permits. */
  ghost predicate ReferenceClaim(setup: Setup, claim: Claim) {
    && claim.cell == CpuReference && claim.replicate == 1 && ClaimInRange(claim) && SettledClaim(setup, claim)
    && Permitted(setup, RequestOf(claim))
  }

  /** The evidence with the run of one more reference claim. */
  function WithReference(setup: Setup, completed: Completed, claim: Claim): Completed
    requires claim.outcome.Finished?
  {
    completed[(CpuReference, 1) := RunOf(setup, claim)]
  }

  /** The spec is an M3_PROFILE one the authority lists, for the condition accepted through M2. */
  predicate ProfileFor(setup: Setup, completed: Completed, spec: CellSpec) {
    && spec.cell == M3Profile
    && (M3Profile, 1) in setup.authority && spec in setup.authority[(M3Profile, 1)]
    && ControlsAre(ActiveCondition(setup, completed, 2), spec.controls, (t: Treatment) => t, true)
  }

  /**
   The reference, once its claim is settled, opens M3 for the condition then accepted through M2, and the
   authority lists the spec to profile that condition.
   */
  ghost predicate OpensM3(setup: Setup, completed: Completed, claim: Claim, spec: CellSpec) {
    && ReferenceClaim(setup, claim)
    && M3OpeningSupported(setup, WithReference(setup, completed, claim)) == Ok(true)
    && ProfileFor(setup, WithReference(setup, completed, claim), spec)
  }

  /**
   On the evidence that admits M4: the reference is not final, M3 is not open, and some reference the
   campaign would accept opens it for a condition whose profile the authority lists.
   */
  ghost predicate CanReopen(setup: Setup, completed: Completed) {
    && !ReferenceFinal(completed)
    && M3OpeningSupported(setup, completed) != Ok(true)
    && exists claim, spec :: OpensM3(setup, completed, claim, spec)
  }

  lemma ReferenceAdded(completed: Completed, run: Run)
    requires RunsFor(completed, CpuReference) == []
    ensures RunsFor(completed[(CpuReference, 1) := run], CpuReference) == [run]
    ensures forall cell: Cell | cell != CpuReference ::
              RunsFor(completed[(CpuReference, 1) := run], cell) == RunsFor(completed, cell)
  {
    var after := completed[(CpuReference, 1) := run];
    RunsForSlots(completed, CpuReference);
    RunsForSlots(after, CpuReference);
    forall cell: Cell | cell != CpuReference
      ensures RunsFor(after, cell) == RunsFor(completed, cell)
    {
      RunsForSlots(completed, cell);
      RunsForSlots(after, cell);
    }
  }

  /** M3 opening looks at M0, M1, M2 and the reference only. */
  lemma AgreeWithReference(setup: Setup, a: Completed, b: Completed, claim: Claim)
    requires ReferenceClaim(setup, claim) && RunsFor(a, CpuReference) == []
    requires RunsFor(b, M0) == RunsFor(a, M0) && RunsFor(b, M1) == RunsFor(a, M1) && RunsFor(b, M2) == RunsFor(a, M2)
    requires RunsFor(b, CpuReference) == [RunOf(setup, claim)]
    ensures Agree(WithReference(setup, a, claim), b, 2)
  {
    ReferenceAdded(a, RunOf(setup, claim));
    AgreeThroughM2(WithReference(setup, a, claim), b);
  }

  /** The reference claim that changed what is known between two entries. */
  lemma ReferenceBetween(setup: Setup, ledger: seq<Claim>, i: int, j: int) returns (k: int)
    requires LedgerInv(setup, ledger) && 0 <= i < j < |ledger| && ledger[i].cell == M4
    requires !ReferenceSettled(setup, ledger, i, j)
    ensures i < k < j && ReferenceClaim(setup, ledger[k])
    ensures RunsFor(SeenBy(setup, ledger, j), CpuReference) == [RunOf(setup, ledger[k])]
  {
    k :| i <= k < j && ledger[k].cell == CpuReference;
    ReferenceSeen(setup, ledger, k, j);
  }

  lemma ReferenceSeen(setup: Setup, ledger: seq<Claim>, k: int, j: int)
    requires LedgerInv(setup, ledger) && Visible(setup, ledger, j) && 0 <= k < j && ledger[k].cell == CpuReference
    ensures ReferenceClaim(setup, ledger[k])
    ensures RunsFor(SeenBy(setup, ledger, j), CpuReference) == [RunOf(setup, ledger[k])]
  {
    assert ClaimInRange(ledger[k]) && PermittedAt(setup, ledger, k);
    SeenHas(setup, ledger, k, j);
    SeenWellKeyed(setup, ledger, j);
    OnlyReference(SeenBy(setup, ledger, j), RunOf(setup, ledger[k]));
  }

  lemma OnlyReference(completed: Completed, run: Run)
    requires forall k | k in completed :: 1 <= k.1 <= CellCap(k.0)
    requires (CpuReference, 1) in completed && completed[(CpuReference, 1)] == run
    ensures RunsFor(completed, CpuReference) == [run]
  {
    RunsForSlots(completed, CpuReference);
  }

  /** M3 has not been profiled while the reference is open and M3 is not. */
  lemma NoProfileYet(setup: Setup, ledger: seq<Claim>, i: int)
    requires LedgerInv(setup, ledger) && 0 <= i < |ledger| && ledger[i].cell == M4
    requires !ReferenceFinal(SeenBy(setup, ledger, i))
    requires M3OpeningSupported(setup, SeenBy(setup, ledger, i)) != Ok(true)
    ensures RunsFor(SeenBy(setup, ledger, i), M3Profile) == []
  {
    if RunsFor(SeenBy(setup, ledger, i), M3Profile) != [] {
      var h := SeenCellEarlier(setup, ledger, i, M3Profile);
      GateM3Opened(setup, ledger, h);
      forall n | h <= n < i
        ensures ledger[n].cell != CpuReference
      {
        EarlierCellSeen(setup, ledger, n, i);
      }
      OpeningStable(setup, ledger, h, i);
    }
  }

  /** The gate of M3_PROFILE asks for the controls of the condition accepted through M2, with the profiler on. */
  lemma GateProfileControls(setup: Setup, completed: Completed, replicate: int, spec: CellSpec)
    requires AuthorizeCellStart(setup, completed, replicate, spec) && spec.cell == M3Profile
    ensures ControlsAre(ActiveCondition(setup, completed, 2), spec.controls, (t: Treatment) => t, true)
  {
  }

  lemma ProfileClaimed(setup: Setup, ledger: seq<Claim>, j: int)
    requires LedgerInv(setup, ledger) && 0 <= j < |ledger| && ledger[j].cell == M3Profile
    ensures ProfileFor(setup, SeenBy(setup, ledger, j), ledger[j].spec)
  {
    assert GatedAt(setup, ledger, j) && ClaimInRange(ledger[j]) && PermittedAt(setup, ledger, j);
    GateProfileControls(setup, SeenBy(setup, ledger, j), ledger[j].replicate, ledger[j].spec);
  }

  lemma ProfileAgree(setup: Setup, a: Completed, b: Completed, spec: CellSpec)
    requires Agree(a, b, 2)
    ensures ProfileFor(setup, b, spec) == ProfileFor(setup, a, spec)
  {
    ActiveAgree(setup, a, b, 2);
  }

  /** What an M3 cell after M4 shows of the evidence that admitted M4. */
  lemma ReopenedAt(setup: Setup, ledger: seq<Claim>, i: int, j: int) returns (k: int)
    requires LedgerInv(setup, ledger) && 0 <= i < j < |ledger|
    requires ledger[i].cell == M4 && ledger[j].cell in M3_CELLS
    ensures var seen := SeenBy(setup, ledger, i);
            && !ReferenceFinal(seen) && M3OpeningSupported(setup, seen) != Ok(true)
            && i < k < j && ReferenceClaim(setup, ledger[k])
            && Agree(WithReference(setup, seen, ledger[k]), SeenBy(setup, ledger, j), 2)
  {
    var a, b := SeenBy(setup, ledger, i), SeenBy(setup, ledger, j);
    if M3Shut(setup, ledger, i, j) {
      NoM3AfterM4(setup, ledger, i, j);
    }
    if ReferenceFinal(a) {
      FinalReferenceIsSettled(setup, ledger, i, j);
    }
    k := ReferenceBetween(setup, ledger, i, j);
    BaselineStays(setup, ledger, i, j);
    M1Stays(setup, ledger, i, j);
    M2Stays(setup, ledger, i, j);
    AgreeWithReference(setup, a, b, ledger[k]);
  }

  lemma ProfileAfterM4Needs(setup: Setup, ledger: seq<Claim>, i: int, j: int)
    requires LedgerInv(setup, ledger) && 0 <= i < j < |ledger|
    requires ledger[i].cell == M4 && ledger[j].cell == M3Profile
    ensures CanReopen(setup, SeenBy(setup, ledger, i))
  {
    var a, b := SeenBy(setup, ledger, i), SeenBy(setup, ledger, j);
    var k := ReopenedAt(setup, ledger, i, j);
    OpeningAgree(setup, WithReference(setup, a, ledger[k]), b);
    GateM3Opened(setup, ledger, j);
    ProfileClaimed(setup, ledger, j);
    ProfileAgree(setup, WithReference(setup, a, ledger[k]), b, ledger[j].spec);
    assert OpensM3(setup, a, ledger[k], ledger[j].spec);
  }

  /** An M3 treatment after M4 has its profile after M4, too. */
  lemma ProfileBetween(setup: Setup, ledger: seq<Claim>, i: int, j: int) returns (h: int)
    requires LedgerInv(setup, ledger) && 0 <= i < j < |ledger|
    requires ledger[i].cell == M4 && (ledger[j].cell == M3A || ledger[j].cell == M3B)
    ensures i < h < j && ledger[h].cell == M3Profile
  {
    var k := ReopenedAt(setup, ledger, i, j);
    NoProfileYet(setup, ledger, i);
    assert GatedAt(setup, ledger, j) && ClaimInRange(ledger[j]);
    GateM3Treatment(setup, SeenBy(setup, ledger, j), ledger[j].replicate, ledger[j].spec);
    h := SeenCellEarlier(setup, ledger, j, M3Profile);
    if h < i {
      EarlierCellSeen(setup, ledger, h, i);
    }
  }

  /** An M3 cell after M4 needs an open reference, a closed M3, and a reference that opens it for a listed profile. */
  lemma M3AfterM4Needs(setup: Setup, ledger: seq<Claim>, i: int, j: int)
    requires LedgerInv(setup, ledger) && 0 <= i < j < |ledger|
    requires ledger[i].cell == M4 && ledger[j].cell in M3_CELLS
    ensures CanReopen(setup, SeenBy(setup, ledger, i))
  {
    if ledger[j].cell == M3Profile {
      ProfileAfterM4Needs(setup, ledger, i, j);
    } else {
      var h := ProfileBetween(setup, ledger, i, j);
      ProfileAfterM4Needs(setup, ledger, i, h);
    }
  }

  /** In every run: unless M3 can re-open on the evidence that admits M4, it is closed for all later claims. */
  lemma M4ClosesM3(setup: Setup, states: seq<State>, steps: seq<Step>, n: nat, i: int, j: int)
    requires IsRun(setup, states, steps) && n < |states| && 0 <= i < j < |states[n].ledger|
    requires states[n].ledger[i].cell == M4 && !CanReopen(setup, SeenBy(setup, states[n].ledger, i))
    ensures states[n].ledger[j].cell !in M3_CELLS
  {
    RunKeepsInvariant(setup, states, steps, n);
    if states[n].ledger[j].cell in M3_CELLS {
      M3AfterM4Needs(setup, states[n].ledger, i, j);
    }
  }

  // ---------------------------------------------------------------- the gates of M3_PROFILE and M4, exactly

  lemma ProfileGate(setup: Setup, completed: Completed, spec: CellSpec)
    requires CacheGate(setup, completed) && ThreeValidRuns(RunsFor(completed, M2), false)
    requires RunsFor(completed, M5) == [] && RunsFor(completed, M3Profile) == [] && spec.cell == M3Profile
    requires AuthorizeM3Profile(setup, completed, 1, spec.controls)
    ensures AuthorizeCellStart(setup, completed, 1, spec)
  {
    ProfileIsLater(setup, completed, spec);
    LaterGate(setup, completed, 1, spec);
  }

  lemma ProfileIsLater(setup: Setup, completed: Completed, spec: CellSpec)
    requires CacheGate(setup, completed) && ThreeValidRuns(RunsFor(completed, M2), false) && spec.cell == M3Profile
    requires AuthorizeM3Profile(setup, completed, 1, spec.controls)
    ensures AuthorizeLater(setup, completed, 1, spec, spec.controls)
  {
  }

  /** The spec M3_PROFILE has to run under the condition in force. */
  function ProfileSpec(treatment: Treatment): CellSpec {
    CellSpec(M3Profile, 1, Controls(treatment, true), None)
  }

  lemma ProfileAllowed(setup: Setup, completed: Completed, spec: CellSpec)
    requires CacheGate(setup, completed) && ThreeValidRuns(RunsFor(completed, M2), false)
    requires RunsFor(completed, M5) == [] && RunsFor(completed, M3Profile) == [] && spec.cell == M3Profile
    requires M3OpeningSupported(setup, completed) == Ok(true)
    requires ControlsAre(ActiveCondition(setup, completed, 2), spec.controls, (t: Treatment) => t, true)
    ensures AuthorizeCellStart(setup, completed, 1, spec)
  {
    assert AuthorizeM3Profile(setup, completed, 1, spec.controls);
    ProfileGate(setup, completed, spec);
  }

  /** Past the common gates the profile is admissible exactly when the condition in force opens M3. */
  lemma ProfileAdmittedExactly(setup: Setup, completed: Completed)
    requires CacheGate(setup, completed) && ThreeValidRuns(RunsFor(completed, M2), false)
    requires RunsFor(completed, M5) == [] && RunsFor(completed, M3Profile) == []
    ensures (exists spec: CellSpec :: spec.cell == M3Profile && AuthorizeCellStart(setup, completed, 1, spec))
            <==> M3OpeningSupported(setup, completed) == Ok(true)
  {
    if M3OpeningSupported(setup, completed) == Ok(true) {
      var spec := ProfileSpec(ActiveCondition(setup, completed, 2).value.value.treatment);
      ProfileAllowed(setup, completed, spec);
    }
    forall spec: CellSpec | spec.cell == M3Profile && AuthorizeCellStart(setup, completed, 1, spec)
      ensures M3OpeningSupported(setup, completed) == Ok(true)
    {
      GateM3Profile(setup, completed, 1, spec);
    }
  }

  // ---------------------------------------------------------------- the common gate stays open

  /** A condition derivable through M2 is derivable through M1. */
  lemma ActiveThroughM1(setup: Setup, completed: Completed)
    requires ActiveCondition(setup, completed, 2).Ok? && ThreeValidRuns(RunsFor(completed, M0), false)
    ensures QualifiedTreatments(setup, completed, 1).Ok?
    ensures ActiveCondition(setup, completed, 1).Ok? && ActiveCondition(setup, completed, 1).value.Some?
  {
    var none: seq<Accepted> := [];
    var accepted := QualifiedTreatments(setup, completed, 2).value;
    var first := QualifiedStep(setup, completed, 2, accepted);
    assert QualifiedTreatments(setup, completed, 0) == Ok(none);
    QualifiedUnfold(setup, completed, 1, none);
    FirstStage(setup, completed, none, first);
    FirstActive(setup, completed, first);
  }

  /** What the first stage accepts carries the controls of its own consistent runs. */
  lemma FirstStage(setup: Setup, completed: Completed, none: seq<Accepted>, first: seq<Accepted>)
    requires none == [] && AddTreatmentStage(setup, completed, 1, none) == Ok(first)
    ensures first == []
            || (&& RunsFor(completed, M1) != [] && SameTreatment(RunsFor(completed, M1))
                && first == [Accepted(M1, RunsFor(completed, M1)[0].controls.treatment)])
  {
    assert StageM1(setup, completed, none) == Ok(first);
    assert none + none == none;
    var candidate := InForceCandidate(setup, completed, M1, none);
    assert none + candidate == candidate;
  }

  lemma FirstActive(setup: Setup, completed: Completed, first: seq<Accepted>)
    requires ThreeValidRuns(RunsFor(completed, M0), false) && SameTreatment(RunsFor(completed, M0))
    requires QualifiedTreatments(setup, completed, 1) == Ok(first)
    requires first == []
             || (&& RunsFor(completed, M1) != [] && SameTreatment(RunsFor(completed, M1))
                 && first == [Accepted(M1, RunsFor(completed, M1)[0].controls.treatment)])
    ensures ActiveCondition(setup, completed, 1).Ok? && ActiveCondition(setup, completed, 1).value.Some?
  {
  }

  /** A cache gate once passed stays open while M0 and M1 stay as they are and the condition is derivable. */
  lemma CacheGateStays(setup: Setup, a: Completed, b: Completed)
    requires CacheGate(setup, a) && ThreeValidRuns(RunsFor(a, M0), false)
    requires RunsFor(b, M0) == RunsFor(a, M0) && RunsFor(b, M1) == RunsFor(a, M1)
    requires QualifiedTreatments(setup, b, 1).Ok?
    requires ActiveCondition(setup, b, 1).Ok? && ActiveCondition(setup, b, 1).value.Some?
    ensures CacheGate(setup, b)
  {
  }

  // ---------------------------------------------------------------- how M3 re-opens

  /** A fully diagnosed out-of-memory failure before the model was loaded. */
  function OomEvidence(setup: Setup, claim: Claim, controls: Controls): RawEvidence {
    RawEvidence(claim.cell, claim.replicate, claim.spec, setup.binding, RunIdentity("", "", "", "", ""), true, true,
                controls, CudaOom, ReportedFailed, ReportedFailed, true, map[], [], None, 0, 0, 0, true, true, true,
                [], false, None, None, [])
  }

  /** Any claim the authority permits can settle, if only by running out of memory. */
  lemma SettleByOom(setup: Setup, claim: Claim) returns (settled: Claim)
    requires Permitted(setup, RequestOf(claim)) && ClaimInRange(claim) && EffectiveControls(claim.spec).Some?
    ensures SettledClaim(setup, settled) && settled == claim.(outcome := settled.outcome)
  {
    var raw := OomEvidence(setup, claim, EffectiveControls(claim.spec).value);
    settled := claim.(outcome := Finished(0.0, Oom, true, raw));
  }

  /** What the gate of M4 says of the evidence it saw. */
  lemma M4Evidence(setup: Setup, ledger: seq<Claim>, i: int)
    requires LedgerInv(setup, ledger) && 0 <= i < |ledger| && ledger[i].cell == M4
    ensures var seen := SeenBy(setup, ledger, i);
            && CacheGate(setup, seen) && RunsFor(seen, M5) == []
            && ThreeValidRuns(RunsFor(seen, M0), false) && ThreeValidRuns(RunsFor(seen, M2), false)
            && EffectiveControls(ledger[i].spec).Some?
  {
    var seen, spec, r := SeenBy(setup, ledger, i), ledger[i].spec, ledger[i].replicate;
    assert GatedAt(setup, ledger, i) && ClaimInRange(ledger[i]);
    GateNeedsBaseline(setup, seen, r, spec);
    GateLater(setup, seen, r, spec);
    GateStopsAfterM5(setup, seen, r, spec);
  }

  /** On evidence that differs by M4 runs and the reference only, the profile is admissible. */
  lemma ProfileAfterReference(setup: Setup, seen: Completed, after: Completed, reference: Claim, spec: CellSpec)
    requires CacheGate(setup, seen) && RunsFor(seen, M5) == [] && RunsFor(seen, M3Profile) == []
    requires ThreeValidRuns(RunsFor(seen, M0), false) && ThreeValidRuns(RunsFor(seen, M2), false)
    requires RunsFor(seen, CpuReference) == [] && OpensM3(setup, seen, reference, spec)
    requires SameButM4(seen, after) && RunsFor(after, CpuReference) == [RunOf(setup, reference)]
    ensures AuthorizeCellStart(setup, after, 1, spec)
  {
    OpenAfterReference(setup, seen, after, reference, spec);
    ActiveThroughM1(setup, after);
    CacheGateStays(setup, seen, after);
    ProfileAllowed(setup, after, spec);
  }

  lemma OpenAfterReference(setup: Setup, seen: Completed, after: Completed, reference: Claim, spec: CellSpec)
    requires RunsFor(seen, CpuReference) == [] && OpensM3(setup, seen, reference, spec)
    requires SameButM4(seen, after) && RunsFor(after, CpuReference) == [RunOf(setup, reference)]
    ensures M3OpeningSupported(setup, after) == Ok(true) && ActiveCondition(setup, after, 2).Ok?
    ensures ProfileFor(setup, after, spec)
  {
    AgreeWithReference(setup, seen, after, reference);
    OpeningAgree(setup, WithReference(setup, seen, reference), after);
    ProfileAgree(setup, WithReference(setup, seen, reference), after, spec);
  }

  /** The runs of all cells but M4 and the CPU reference are the same. */
  predicate SameButM4(a: Completed, b: Completed) {
    && RunsFor(b, M0) == RunsFor(a, M0) && RunsFor(b, M1) == RunsFor(a, M1) && RunsFor(b, M2) == RunsFor(a, M2)
    && RunsFor(b, M3Profile) == RunsFor(a, M3Profile) && RunsFor(b, M3A) == RunsFor(a, M3A)
    && RunsFor(b, M3B) == RunsFor(a, M3B) && RunsFor(b, M5) == RunsFor(a, M5)
  }

  lemma M4Added(seen: Completed, replicate: int, run: Run)
    ensures SameButM4(seen, seen[(M4, replicate) := run])
    ensures RunsFor(seen[(M4, replicate) := run], CpuReference) == RunsFor(seen, CpuReference)
  {
    forall cell: Cell | cell != M4
      ensures RunsFor(seen[(M4, replicate) := run], cell) == RunsFor(seen, cell)
    {
      RunsElsewhere(seen, (M4, replicate), run, cell);
    }
  }

  /** No claim so far is of a cell that has no run. */
  lemma NotClaimedYet(setup: Setup, ledger: seq<Claim>, n: int, cell: Cell)
    requires Orderly(setup, ledger) && Visible(setup, ledger, n) && RunsFor(SeenBy(setup, ledger, n), cell) == []
    ensures forall i | 0 <= i < n :: ledger[i].cell != cell
  {
    forall i | 0 <= i < n
      ensures ledger[i].cell != cell
    {
      EarlierCellSeen(setup, ledger, i, n);
    }
  }

  /** M4 settles. */
  lemma M4Settles(setup: Setup, ledger: seq<Claim>) returns (settled: Claim, next: seq<Claim>)
    requires ledger != [] && LedgerInv(setup, ledger)
    requires ledger[|ledger| - 1].cell == M4
    ensures SettledClaim(setup, settled) && settled == ledger[|ledger| - 1].(outcome := settled.outcome)
    ensures next == ledger[..|ledger| - 1] + [settled]
    ensures LedgerInv(setup, next) && AllSettled(setup, next)
    ensures CompletedRuns(setup, next) == SeenBy(setup, ledger, |ledger| - 1)[KeyOf(settled) := RunOf(setup, settled)]
  {
    var n := |ledger| - 1;
    M4Evidence(setup, ledger, n);
    assert ClaimInRange(ledger[n]) && PermittedAt(setup, ledger, n);
    settled := SettleByOom(setup, ledger[n]);
    next := ledger[..n] + [settled];
    LastReplaced(setup, ledger, settled);
    RunsExtend(setup, ledger[..n], settled);
  }

  lemma LastReplaced(setup: Setup, ledger: seq<Claim>, settled: Claim)
    requires ledger != [] && LedgerInv(setup, ledger) && SettledClaim(setup, settled)
    requires settled == ledger[|ledger| - 1].(outcome := settled.outcome)
    ensures var next := ledger[..|ledger| - 1] + [settled];
            LedgerInv(setup, next) && AllSettled(setup, next)
  {
    var n := |ledger| - 1;
    assert ClaimInRange(ledger[n]) && GatedAt(setup, ledger, n) && PermittedAt(setup, ledger, n);
    assert forall i | 0 <= i < n :: KeyOf(ledger[i]) != KeyOf(ledger[n]);
    PrefixInvariant(setup, ledger, n);
    InvariantExtends(setup, ledger[..n], settled);
  }

  /** The reference arrives on evidence that differs from `seen` by M4 runs only. */
  lemma ReferenceArrives(setup: Setup, ledger: seq<Claim>, seen: Completed, reference: Claim)
    requires LedgerInv(setup, ledger) && AllSettled(setup, ledger) && ReferenceClaim(setup, reference)
    requires forall i | 0 <= i < |ledger| :: ledger[i].cell != CpuReference
    requires ThreeValidRuns(RunsFor(seen, M0), false) && AnyOom(RunsFor(seen, M0)) && RunsFor(seen, M5) == []
    requires SameButM4(seen, CompletedRuns(setup, ledger)) && RunsFor(CompletedRuns(setup, ledger), CpuReference) == []
    ensures LedgerInv(setup, ledger + [reference]) && AllSettled(setup, ledger + [reference])
    ensures SameButM4(seen, CompletedRuns(setup, ledger + [reference]))
    ensures RunsFor(CompletedRuns(setup, ledger + [reference]), CpuReference) == [RunOf(setup, reference)]
  {
    var before := CompletedRuns(setup, ledger);
    CpuGate(setup, before, reference.spec);
    InvariantExtends(setup, ledger, reference);
    RunsExtend(setup, ledger, reference);
    ReferenceAdded(before, RunOf(setup, reference));
  }

  /** The ledger with its last claim settled. */
  ghost predicate LastSettled(setup: Setup, ledger: seq<Claim>, next: seq<Claim>) {
    && ledger != [] && |next| == |ledger| && next[..|ledger| - 1] == ledger[..|ledger| - 1]
    && next[|ledger| - 1] == ledger[|ledger| - 1].(outcome := next[|ledger| - 1].outcome)
    && LedgerInv(setup, next) && AllSettled(setup, next)
  }

  lemma M4SettlesOnly(setup: Setup, ledger: seq<Claim>, seen: Completed) returns (next: seq<Claim>)
    requires ledger != [] && LedgerInv(setup, ledger) && seen == SeenBy(setup, ledger, |ledger| - 1)
    requires ledger[|ledger| - 1].cell == M4
    ensures LastSettled(setup, ledger, next) && SameButM4(seen, CompletedRuns(setup, next))
    ensures RunsFor(CompletedRuns(setup, next), CpuReference) == RunsFor(seen, CpuReference)
  {
    var m4, first := M4Settles(setup, ledger);
    M4Added(seen, m4.replicate, RunOf(setup, m4));
    next := first;
  }

  lemma NoReferenceIn(setup: Setup, ledger: seq<Claim>, next: seq<Claim>)
    requires LastSettled(setup, ledger, next) && ledger[|ledger| - 1].cell == M4
    requires forall i | 0 <= i < |ledger| - 1 :: ledger[i].cell != CpuReference
    ensures forall i | 0 <= i < |next| :: next[i].cell != CpuReference
  {
    forall i | 0 <= i < |ledger| - 1
      ensures next[i] == ledger[i]
    {
      assert next[..|ledger| - 1][i] == ledger[..|ledger| - 1][i];
    }
  }

  /** M4 settles, and the reference arrives. */
  lemma M4AndReference(setup: Setup, ledger: seq<Claim>, seen: Completed, reference: Claim) returns (first: seq<Claim>)
    requires ledger != [] && LedgerInv(setup, ledger) && seen == SeenBy(setup, ledger, |ledger| - 1)
    requires ledger[|ledger| - 1].cell == M4
    requires ReferenceClaim(setup, reference) && RunsFor(seen, CpuReference) == [] && AnyOom(RunsFor(seen, M0))
    requires ThreeValidRuns(RunsFor(seen, M0), false) && RunsFor(seen, M5) == []
    requires forall i | 0 <= i < |ledger| - 1 :: ledger[i].cell != CpuReference
    ensures LastSettled(setup, ledger, first)
    ensures LedgerInv(setup, first + [reference]) && AllSettled(setup, first + [reference])
    ensures SameButM4(seen, CompletedRuns(setup, first + [reference]))
    ensures RunsFor(CompletedRuns(setup, first + [reference]), CpuReference) == [RunOf(setup, reference)]
  {
    first := M4SettlesOnly(setup, ledger, seen);
    NoReferenceIn(setup, ledger, first);
    ReferenceArrives(setup, first, seen, reference);
  }

  /** The evidence that admitted M4, and the claims before it, leave room for a reference and a profile. */
  ghost predicate Ready(setup: Setup, ledger: seq<Claim>, seen: Completed) {
    && CacheGate(setup, seen) && RunsFor(seen, M5) == [] && RunsFor(seen, M3Profile) == []
    && ThreeValidRuns(RunsFor(seen, M0), false) && ThreeValidRuns(RunsFor(seen, M2), false)
    && RunsFor(seen, CpuReference) == [] && AnyOom(RunsFor(seen, M0))
    && (forall i | 0 <= i < |ledger| - 1 :: ledger[i].cell != CpuReference && ledger[i].cell != M3Profile)
  }

  lemma ReadyToReopen(setup: Setup, ledger: seq<Claim>, seen: Completed)
    requires ledger != [] && LedgerInv(setup, ledger) && seen == SeenBy(setup, ledger, |ledger| - 1)
    requires ledger[|ledger| - 1].cell == M4 && CanReopen(setup, seen)
    ensures Ready(setup, ledger, seen)
  {
    var n := |ledger| - 1;
    M4Evidence(setup, ledger, n);
    NoProfileYet(setup, ledger, n);
    NotClaimedYet(setup, ledger, n, CpuReference);
    NotClaimedYet(setup, ledger, n, M3Profile);
  }

  /** M4 settles, the reference arrives, and the profile is claimed. */
  lemma ReopenLedger(setup: Setup, ledger: seq<Claim>, seen: Completed, reference: Claim, spec: CellSpec)
    returns (first: seq<Claim>, profile: Claim)
    requires ledger != [] && LedgerInv(setup, ledger) && seen == SeenBy(setup, ledger, |ledger| - 1)
    requires ledger[|ledger| - 1].cell == M4
    requires Ready(setup, ledger, seen) && OpensM3(setup, seen, reference, spec)
    ensures LastSettled(setup, ledger, first) && profile.cell == M3Profile && profile.spec == spec
    ensures LedgerInv(setup, first + [reference] + [profile]) && Proper(setup, first + [reference] + [profile])
  {
    first := M4AndReference(setup, ledger, seen, reference);
    OtherCells(setup, ledger, first, reference);
    profile := ProfileFollows(setup, first + [reference], seen, reference, spec);
  }

  lemma OtherCells(setup: Setup, ledger: seq<Claim>, first: seq<Claim>, reference: Claim)
    requires LastSettled(setup, ledger, first) && ledger[|ledger| - 1].cell == M4 && reference.cell == CpuReference
    requires forall i | 0 <= i < |ledger| - 1 :: ledger[i].cell != M3Profile
    ensures forall i | 0 <= i < |first + [reference]| :: (first + [reference])[i].cell != M3Profile
  {
    forall i | 0 <= i < |ledger| - 1
      ensures first[i] == ledger[i]
    {
      assert first[..|ledger| - 1][i] == ledger[..|ledger| - 1][i];
    }
  }

  lemma HistoryKept(setup: Setup, ledger: seq<Claim>, first: seq<Claim>, reference: Claim, profile: Claim)
    requires LastSettled(setup, ledger, first) && ledger[|ledger| - 1].outcome.Pending?
    ensures var final := first + [reference] + [profile];
            && SameHistory(ledger, final) && |final| == |ledger| + 2
            && final[|ledger|] == reference && final[|ledger| + 1] == profile
  {
    forall i | 0 <= i < |ledger| - 1
      ensures first[i] == ledger[i]
    {
      assert first[..|ledger| - 1][i] == ledger[..|ledger| - 1][i];
    }
  }

  lemma ProfileFollows(setup: Setup, ledger: seq<Claim>, seen: Completed, reference: Claim, spec: CellSpec)
    returns (profile: Claim)
    requires LedgerInv(setup, ledger) && AllSettled(setup, ledger)
    requires forall i | 0 <= i < |ledger| :: ledger[i].cell != M3Profile
    requires CacheGate(setup, seen) && RunsFor(seen, M5) == [] && RunsFor(seen, M3Profile) == []
    requires ThreeValidRuns(RunsFor(seen, M0), false) && ThreeValidRuns(RunsFor(seen, M2), false)
    requires RunsFor(seen, CpuReference) == [] && OpensM3(setup, seen, reference, spec)
    requires SameButM4(seen, CompletedRuns(setup, ledger))
    requires RunsFor(CompletedRuns(setup, ledger), CpuReference) == [RunOf(setup, reference)]
    ensures profile.cell == M3Profile && profile.spec == spec && profile.outcome.Pending?
    ensures LedgerInv(setup, ledger + [profile]) && Proper(setup, ledger + [profile])
  {
    ProfileAfterReference(setup, seen, CompletedRuns(setup, ledger), reference, spec);
    profile := Claim(M3Profile, 1, spec, setup.binding, 0.0, MAX_CELL_SECONDS, Pending);
    InvariantExtends(setup, ledger, profile);
  }

  // ---------------------------------------------------------------- the exact boundary

  /** A run that claims what the ledger claims and later, at `j`, an M3 cell. */
  ghost predicate ReopensIn(setup: Setup, ledger: seq<Claim>, states: seq<State>, steps: seq<Step>, j: int) {
    && IsRun(setup, states, steps)
    && var final := states[|states| - 1].ledger;
       SameHistory(ledger, final) && |ledger| <= j < |final| && final[j].cell in M3_CELLS
  }

  lemma ReopenedNeeds(setup: Setup, ledger: seq<Claim>, states: seq<State>, steps: seq<Step>, j: int)
    requires ledger != [] && LedgerInv(setup, ledger) && ledger[|ledger| - 1].cell == M4
    requires ReopensIn(setup, ledger, states, steps, j)
    ensures CanReopen(setup, SeenBy(setup, ledger, |ledger| - 1))
  {
    var n, final := |ledger| - 1, states[|states| - 1].ledger;
    RunKeepsInvariant(setup, states, steps, |states| - 1);
    SameEvidence(setup, ledger, final, n);
    M3AfterM4Needs(setup, final, n, j);
  }

  lemma ReopensWhen(setup: Setup, ledger: seq<Claim>, final: seq<Claim>, states: seq<State>, steps: seq<Step>)
    requires Reaches(setup, states, steps, RetimedAll(setup, final)) && SameHistory(ledger, final)
    requires |final| == |ledger| + 2 && final[|ledger| + 1].cell == M3Profile
    ensures ReopensIn(setup, ledger, states, steps, |ledger| + 1)
  {
    RetimedHistory(setup, ledger, final);
  }

  lemma ReopenedBy(setup: Setup, ledger: seq<Claim>, seen: Completed, reference: Claim, spec: CellSpec)
    returns (final: seq<Claim>, states: seq<State>, steps: seq<Step>)
    requires ledger != [] && LedgerInv(setup, ledger) && seen == SeenBy(setup, ledger, |ledger| - 1)
    requires var last := ledger[|ledger| - 1]; last.cell == M4 && last.outcome.Pending?
    requires Ready(setup, ledger, seen) && OpensM3(setup, seen, reference, spec)
    ensures SameHistory(ledger, final) && |final| == |ledger| + 2
    ensures final[|ledger|] == reference && final[|ledger| + 1].cell == M3Profile && final[|ledger| + 1].spec == spec
    ensures Reaches(setup, states, steps, RetimedAll(setup, final))
  {
    var first, profile := ReopenLedger(setup, ledger, seen, reference, spec);
    HistoryKept(setup, ledger, first, reference, profile);
    final := first + [reference] + [profile];
    states, steps := InvariantIsReached(setup, final);
  }

  /**
   For every ledger that has just admitted M4: some run with these claims admits an M3 cell later if and
   only if the parity reference is not final, M3 is not open, and some reference the campaign would
   accept opens M3 for a condition, then accepted through M2, whose profile the authority lists.
   */
  lemma M3ReopensExactly(setup: Setup, ledger: seq<Claim>)
    requires ledger != [] && LedgerInv(setup, ledger)
    requires var last := ledger[|ledger| - 1]; last.cell == M4 && last.outcome.Pending?
    ensures (exists states, steps, j :: ReopensIn(setup, ledger, states, steps, j))
            <==> CanReopen(setup, SeenBy(setup, ledger, |ledger| - 1))
  {
    var seen := SeenBy(setup, ledger, |ledger| - 1);
    if CanReopen(setup, seen) {
      var reference, spec :| OpensM3(setup, seen, reference, spec);
      ReadyToReopen(setup, ledger, seen);
      var final, states, steps := ReopenedBy(setup, ledger, seen, reference, spec);
      ReopensWhen(setup, ledger, final, states, steps);
    }
    forall states, steps, j | ReopensIn(setup, ledger, states, steps, j)
      ensures CanReopen(setup, SeenBy(setup, ledger, |ledger| - 1))
    {
      ReopenedNeeds(setup, ledger, states, steps, j);
    }
  }
}
