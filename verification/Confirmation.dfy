/** The M5 confirmation runs, and how the sequencing can come to a halt after the baseline. */
module Confirmation {
  import opened Basics
  import opened Contract
  import opened Evidence
  import opened Campaign
  import opened Acceptance
  import opened AcceptedChain
  import opened Ledger
  import opened LedgerInvariant
  import opened StageOrder
  import opened GateStability
  import opened CampaignTheorems
  import opened Reachability
  import opened SampleEvidence
  import opened CampaignStart

  lemma OnlyM5AfterM5(setup: Setup, ledger: seq<Claim>, i: int, j: int)
    requires LedgerInv(setup, ledger) && 0 <= i < j < |ledger| && ledger[i].cell == M5
    ensures ledger[j].cell == M5
  {
    PrerequisitesAt(setup, ledger, j);
    EarlierCellSeen(setup, ledger, i, j);
  }

  lemma AgreeButM5(a: Completed, b: Completed)
    requires forall cell: Cell | cell != M5 :: RunsFor(b, cell) == RunsFor(a, cell)
    ensures Agree(a, b, 4)
  {
    assert RunsFor(b, M0) == RunsFor(a, M0) && RunsFor(b, CpuReference) == RunsFor(a, CpuReference);
    forall cell: Cell | InScope(cell, 4)
      ensures RunsFor(b, cell) == RunsFor(a, cell)
    {
      assert cell != M5;
    }
  }

  lemma OnlyM5Between(setup: Setup, ledger: seq<Claim>, i: int, j: int)
    requires LedgerInv(setup, ledger) && 0 <= i < j < |ledger| && ledger[i].cell == M5
    ensures forall n | i <= n < j :: ledger[n].cell == M5
  {
    forall n | i <= n < j
      ensures ledger[n].cell == M5
    {
      if i < n {
        OnlyM5AfterM5(setup, ledger, i, n);
      }
    }
  }

  /** From one M5 claim to the next, nothing the acceptance depends on changes. */
  lemma AcceptanceFixedAfterM5(setup: Setup, ledger: seq<Claim>, i: int, j: int)
    requires LedgerInv(setup, ledger) && 0 <= i < j < |ledger| && ledger[i].cell == M5
    ensures Agree(SeenBy(setup, ledger, i), SeenBy(setup, ledger, j), 4)
  {
    OnlyM5Between(setup, ledger, i, j);
    forall cell: Cell | cell != M5
      ensures RunsFor(SeenBy(setup, ledger, j), cell) == RunsFor(SeenBy(setup, ledger, i), cell)
    {
      UntouchedCell(setup, ledger, i, j, cell);
    }
    AgreeButM5(SeenBy(setup, ledger, i), SeenBy(setup, ledger, j));
  }

  /** An M5 claim runs the treatment of the last accepted entry. */
  ghost predicate RunsLastAccepted(setup: Setup, seen: Completed, spec: CellSpec) {
    var accepted := QualifiedTreatments(setup, seen, 4);
    && accepted.Ok? && accepted.value != []
    && EffectiveControls(spec).Some?
    && EffectiveControls(spec).value.treatment == accepted.value[|accepted.value| - 1].treatment
  }

  lemma FirstM5Selection(setup: Setup, seen: Completed, spec: CellSpec)
    requires AuthorizeFirstM5(setup, seen, spec) && spec.cell == M5
    ensures RunsLastAccepted(setup, seen, spec)
  {
  }

  lemma M5Selection(setup: Setup, ledger: seq<Claim>, j: int)
    requires LedgerInv(setup, ledger) && 0 <= j < |ledger| && ledger[j].cell == M5
    ensures RunsLastAccepted(setup, SeenBy(setup, ledger, j), ledger[j].spec)
  {
    var seen := SeenBy(setup, ledger, j);
    assert ClaimInRange(ledger[j]);
    if ledger[j].replicate == 1 {
      assert GatedAt(setup, ledger, j);
      GateLater(setup, seen, 1, ledger[j].spec);
      FirstM5Selection(setup, seen, ledger[j].spec);
    } else {
      ReplicatesDense(setup, ledger, j);
      var i := SeenOnly(setup, ledger, j, (M5, 1));
      assert ClaimInRange(ledger[i]) && GatedAt(setup, ledger, i);
      GateLater(setup, SeenBy(setup, ledger, i), 1, ledger[i].spec);
      FirstM5Selection(setup, SeenBy(setup, ledger, i), ledger[i].spec);
      AcceptanceFixedAfterM5(setup, ledger, i, j);
      QualifiedAgree(setup, SeenBy(setup, ledger, i), seen, 4);
      CellControlsFixed(setup, ledger, i, j);
      RunHasSpecControls(setup, ledger[i]);
    }
  }

  /**
   Every M5 run differs from the baseline in the controls of the accepted stages and in no other:
   the cache for M1, the dtype for M2, the attention backend for M3, the batching for M4.
   */
  lemma M5CarriesAcceptedChanges(binding: Binding, authority: map<Key, set<CellSpec>>, parity: ParityGate,
                                 states: seq<State>, steps: seq<Step>, n: nat, j: int)
    requires IsRun(StandardSetup(binding, authority, parity), states, steps) && n < |states|
    requires 0 <= j < |states[n].ledger| && states[n].ledger[j].cell == M5
    ensures var setup := StandardSetup(binding, authority, parity);
            var seen := SeenBy(setup, states[n].ledger, j);
            && RunsFor(seen, M0) != []
            && EffectiveControls(states[n].ledger[j].spec).Some?
            && QualifiedTreatments(setup, seen, 4).Ok?
            && var base, run := BaseTreatment(seen), EffectiveControls(states[n].ledger[j].spec).value.treatment;
               var accepted := QualifiedTreatments(setup, seen, 4).value;
               && accepted != []
               && (run.disableCache != base.disableCache <==> Owned(accepted, CacheKey))
               && (run.dtype != base.dtype <==> Owned(accepted, DtypeKey))
               && (run.backend != base.backend <==> Owned(accepted, BackendKey))
               && (run.batch != base.batch <==> Owned(accepted, BatchKey))
  {
    var setup := StandardSetup(binding, authority, parity);
    var ledger := states[n].ledger;
    var seen := SeenBy(setup, ledger, j);
    RunKeepsInvariant(setup, states, steps, n);
    StandardSetupSingleVariable(binding, authority, parity);
    PrerequisitesAt(setup, ledger, j);
    SeenWellKeyed(setup, ledger, j);
    M5Selection(setup, ledger, j);
    var accepted := QualifiedTreatments(setup, seen, 4).value;
    AcceptedTreatmentsChain(setup, seen, 4, accepted);
    AcceptedChangesAddUp(BaseTreatment(seen), accepted, 4);
  }

  // ---------------------------------------------------------------- the cache gate can halt the campaign

  /** Three consistent valid baseline runs and nothing else have completed. */
  ghost predicate BaselineOnly(completed: Completed) {
    && completed.Keys == {(M0, 1), (M0, 2), (M0, 3)}
    && ThreeValidRuns(RunsFor(completed, M0), false)
    && SameTreatment(RunsFor(completed, M0))
  }

  predicate CacheResolvable(runs: seq<Run>) {
    && AllCacheKnown(runs)
    && (AnyCacheActive(runs) || !AnyCacheEnabled(runs) || !AnyCacheWitness(runs))
  }

  lemma NothingAcceptedYet(setup: Setup, completed: Completed)
    requires BaselineOnly(completed)
    ensures RunsFor(completed, M1) == [] && RunsFor(completed, M2) == [] && RunsFor(completed, M5) == []
    ensures QualifiedTreatments(setup, completed, 1) == Ok([])
    ensures ActiveCondition(setup, completed, 1)
            == Ok(Some(Active(M0, RunsFor(completed, M0)[0].controls.treatment, RunsFor(completed, M0))))
  {
    RunsForSlots(completed, M1);
    RunsForSlots(completed, M2);
    RunsForSlots(completed, M5);
    NothingAccepted(setup, completed);
  }

  /** Before M1 the baseline is in force. */
  lemma NothingAccepted(setup: Setup, completed: Completed)
    requires ThreeValidRuns(RunsFor(completed, M0), false) && SameTreatment(RunsFor(completed, M0))
    requires RunsFor(completed, M1) == []
    ensures QualifiedTreatments(setup, completed, 1) == Ok([])
    ensures ActiveCondition(setup, completed, 1)
            == Ok(Some(Active(M0, RunsFor(completed, M0)[0].controls.treatment, RunsFor(completed, M0))))
  {
    assert QualifiedTreatments(setup, completed, 0) == Ok([]);
    QualifiedUnfold(setup, completed, 1, []);
    var none: seq<Accepted> := [];
    assert none + none == none;
  }

  lemma CacheGateAfterBaseline(setup: Setup, completed: Completed)
    requires BaselineOnly(completed)
    ensures CacheGate(setup, completed) <==>
              AllCacheKnown(RunsFor(completed, M0))
              && (!AnyCacheEnabled(RunsFor(completed, M0)) || !AnyCacheWitness(RunsFor(completed, M0)))
  {
    NothingAcceptedYet(setup, completed);
  }

  /** The spec that can follow: M1 while the cache is active, otherwise M2 with the baseline's controls in fp16. */
  predicate NextFits(completed: Completed, spec: CellSpec)
    requires RunsFor(completed, M0) != []
  {
    if AnyCacheActive(RunsFor(completed, M0)) then spec.cell == M1
    else spec.cell == M2 && spec.controls == HalfOf(RunsFor(completed, M0)[0].controls.treatment)
  }

  /** One such spec, M1 with the cache disabled. */
  function NextSpec(completed: Completed): (spec: CellSpec)
    requires RunsFor(completed, M0) != []
    ensures NextFits(completed, spec)
  {
    var base := RunsFor(completed, M0)[0].controls.treatment;
    if AnyCacheActive(RunsFor(completed, M0)) then
      CellSpec(M1, 1, Controls(base.(disableCache := true), false), None)
    else
      CellSpec(M2, 1, HalfOf(base), None)
  }

  lemma NextIsAdmitted(setup: Setup, completed: Completed, spec: CellSpec)
    requires BaselineOnly(completed) && CacheResolvable(RunsFor(completed, M0))
    requires NextFits(completed, spec)
    ensures AuthorizeCellStart(setup, completed, 1, spec)
  {
    NothingAcceptedYet(setup, completed);
    CacheGateAfterBaseline(setup, completed);
    if spec.cell == M2 {
      assert AuthorizeM2(setup, completed, 1, spec.controls);
    }
  }

  /** After the baseline some M1 or M2 claim is admissible exactly when the cache facts are resolvable. */
  lemma CampaignProceedsPastBaseline(setup: Setup, completed: Completed)
    requires BaselineOnly(completed)
    ensures (exists replicate, spec: CellSpec ::
               spec.cell in {M1, M2} && AuthorizeCellStart(setup, completed, replicate, spec))
            <==> CacheResolvable(RunsFor(completed, M0))
  {
    NothingAcceptedYet(setup, completed);
    CacheGateAfterBaseline(setup, completed);
    if CacheResolvable(RunsFor(completed, M0)) {
      var spec := NextSpec(completed);
      NextIsAdmitted(setup, completed, spec);
    }
    forall replicate, spec: CellSpec |
      spec.cell in {M1, M2} && AuthorizeCellStart(setup, completed, replicate, spec)
      ensures CacheResolvable(RunsFor(completed, M0))
    {
      if spec.cell == M1 {
        GateM1(setup, completed, replicate, spec);
      } else {
        GateLater(setup, completed, replicate, spec);
      }
    }
  }

  /** No later cell is admissible either: they all pass the same gate and need M2. */
  lemma NothingElseAfterBaseline(setup: Setup, completed: Completed, replicate: int, spec: CellSpec)
    requires BaselineOnly(completed) && !CacheResolvable(RunsFor(completed, M0))
    requires AuthorizeCellStart(setup, completed, replicate, spec)
    ensures spec.cell == CpuReference || (spec.cell == M0 && replicate == 4)
    ensures 1 <= replicate <= 3 ==> spec.cell == CpuReference
  {
    NothingAcceptedYet(setup, completed);
    CacheGateAfterBaseline(setup, completed);
    if spec.cell == M1 {
      GateM1(setup, completed, replicate, spec);
    } else if Later(spec.cell) {
      GateLater(setup, completed, replicate, spec);
    }
  }

  // ---------------------------------------------------------------- the halt is for good

  /** With unresolvable facts M1 is not applicable, and every later cell waits for it. */
  lemma UnresolvedGate(setup: Setup, ledger: seq<Claim>, j: int)
    requires LedgerInv(setup, ledger) && 0 <= j < |ledger|
    requires ThreeValidRuns(RunsFor(SeenBy(setup, ledger, j), M0), false)
    requires !CacheResolvable(RunsFor(SeenBy(setup, ledger, j), M0))
    ensures ledger[j].cell != M1
    ensures Later(ledger[j].cell) ==> RunsFor(SeenBy(setup, ledger, j), M1) != []
  {
    var seen := SeenBy(setup, ledger, j);
    assert GatedAt(setup, ledger, j) && ClaimInRange(ledger[j]);
    if ledger[j].cell == M1 {
      GateM1(setup, seen, ledger[j].replicate, ledger[j].spec);
    } else if Later(ledger[j].cell) {
      GateLater(setup, seen, ledger[j].replicate, ledger[j].spec);
      GateWaitsForM1(setup, seen);
    }
  }

  lemma GateWaitsForM1(setup: Setup, completed: Completed)
    requires CacheGate(setup, completed) && ThreeValidRuns(RunsFor(completed, M0), false)
    requires !CacheResolvable(RunsFor(completed, M0))
    ensures RunsFor(completed, M1) != []
  {
  }

  /** No earlier entry is an M1 claim either. */
  lemma NeverM1(setup: Setup, ledger: seq<Claim>, h: int, j: int)
    requires LedgerInv(setup, ledger) && 0 <= h < j < |ledger|
    requires !CacheResolvable(RunsFor(SeenBy(setup, ledger, j), M0))
    ensures ledger[h].cell != M1
  {
    if ledger[h].cell == M1 {
      var a, b := SeenBy(setup, ledger, h), SeenBy(setup, ledger, j);
      assert GatedAt(setup, ledger, h) && ClaimInRange(ledger[h]);
      GateNeedsBaseline(setup, a, ledger[h].replicate, ledger[h].spec);
      SeenGrows(setup, ledger, h, j);
      FullCellStays(a, b, M0);
      UnresolvedGate(setup, ledger, h);
    }
  }

  /** Neither M1 nor a later cell is ever admitted once the baseline's cache facts are unresolvable. */
  lemma HaltedAt(setup: Setup, ledger: seq<Claim>, i: int, j: int)
    requires LedgerInv(setup, ledger) && 0 <= i <= j < |ledger|
    requires ThreeValidRuns(RunsFor(SeenBy(setup, ledger, i), M0), false)
    requires !CacheResolvable(RunsFor(SeenBy(setup, ledger, i), M0))
    ensures ledger[j].cell == CpuReference
  {
    SeenGrows(setup, ledger, i, j);
    FullCellStays(SeenBy(setup, ledger, i), SeenBy(setup, ledger, j), M0);
    FullCellNotAdmitted(setup, ledger, i, j);
    UnresolvedGate(setup, ledger, j);
    if Later(ledger[j].cell) {
      var h := SeenCellEarlier(setup, ledger, j, M1);
      NeverM1(setup, ledger, h, j);
    }
  }

  /** A run that claims what the ledger claims and later, at `j`, anything but the CPU reference. */
  ghost predicate GoesOn(setup: Setup, ledger: seq<Claim>, states: seq<State>, steps: seq<Step>, j: int) {
    && IsRun(setup, states, steps) && SameHistory(ledger, FinalLedger(states))
    && |ledger| <= j < |FinalLedger(states)| && FinalLedger(states)[j].cell != CpuReference
  }

  /** The authority lists a first replicate that can follow the baseline. */
  ghost predicate NextListed(setup: Setup, completed: Completed)
    requires RunsFor(completed, M0) != []
  {
    exists spec: CellSpec :: NextFits(completed, spec) && spec in ListedFor(setup, (spec.cell, 1))
  }

  /** The specs the authority lists for one claim file. */
  function ListedFor(setup: Setup, key: Key): set<CellSpec> {
    if key in setup.authority then setup.authority[key] else {}
  }

  /** The first claim from `i` on that is not the CPU reference. */
  lemma {:induction false} FirstOther(ledger: seq<Claim>, i: int, j: int) returns (m: int)
    requires 0 <= i <= j < |ledger| && ledger[j].cell != CpuReference
    ensures i <= m <= j && ledger[m].cell != CpuReference
    ensures forall n | i <= n < m :: ledger[n].cell == CpuReference
    decreases j - i
  {
    if ledger[i].cell != CpuReference {
      m := i;
    } else {
      m := FirstOther(ledger, i + 1, j);
    }
  }

  lemma SeenButReference(setup: Setup, ledger: seq<Claim>, i: int, m: int)
    requires LedgerInv(setup, ledger) && 0 <= i <= m < |ledger|
    requires forall n | i <= n < m :: ledger[n].cell == CpuReference
    ensures forall cell: Cell | cell != CpuReference ::
              RunsFor(SeenBy(setup, ledger, m), cell) == RunsFor(SeenBy(setup, ledger, i), cell)
  {
    forall cell: Cell | cell != CpuReference
      ensures RunsFor(SeenBy(setup, ledger, m), cell) == RunsFor(SeenBy(setup, ledger, i), cell)
    {
      UntouchedCell(setup, ledger, i, m, cell);
    }
  }

  /** What the gate admits after a baseline with nothing but the reference. */
  lemma AfterBaseline(setup: Setup, seen: Completed, replicate: int, spec: CellSpec)
    requires AuthorizeCellStart(setup, seen, replicate, spec) && spec.cell != M0 && spec.cell != CpuReference
    requires ThreeValidRuns(RunsFor(seen, M0), false) && SameTreatment(RunsFor(seen, M0))
    requires RunsFor(seen, M1) == [] && RunsFor(seen, M2) == []
    ensures CacheResolvable(RunsFor(seen, M0)) && NextFits(seen, spec) && replicate == 1
  {
    if spec.cell == M1 {
      GateM1(setup, seen, replicate, spec);
    } else {
      GateLater(setup, seen, replicate, spec);
      NothingAccepted(setup, seen);
      if !CacheResolvable(RunsFor(seen, M0)) {
        GateWaitsForM1(setup, seen);
      }
      if AllCacheKnown(RunsFor(seen, M0)) && AnyCacheActive(RunsFor(seen, M0)) {
        CacheGateNeedsM1(setup, seen);
      }
      HalfControls(setup, seen, replicate, spec);
    }
  }

  lemma HalfControls(setup: Setup, seen: Completed, replicate: int, spec: CellSpec)
    requires AuthorizeCellStart(setup, seen, replicate, spec) && spec.cell == M2
    requires ActiveCondition(setup, seen, 1)
             == Ok(Some(Active(M0, RunsFor(seen, M0)[0].controls.treatment, RunsFor(seen, M0))))
    ensures spec.controls == HalfOf(RunsFor(seen, M0)[0].controls.treatment)
  {
  }

  lemma GoesOnNeeds(setup: Setup, ledger: seq<Claim>, states: seq<State>, steps: seq<Step>, j: int)
    requires AllSettled(setup, ledger) && BaselineOnly(CompletedRuns(setup, ledger))
    requires GoesOn(setup, ledger, states, steps, j)
    ensures CacheResolvable(RunsFor(CompletedRuns(setup, ledger), M0))
    ensures NextListed(setup, CompletedRuns(setup, ledger))
  {
    var final := FinalLedger(states);
    RunKeepsInvariant(setup, states, steps, |states| - 1);
    SameEvidence(setup, ledger, final, |ledger|);
    assert ledger[..|ledger|] == ledger;
    var m := FirstOther(final, |ledger|, j);
    NextAt(setup, final, |ledger|, m);
  }

  lemma NextAt(setup: Setup, ledger: seq<Claim>, i: int, m: int)
    requires LedgerInv(setup, ledger) && 0 <= i <= m < |ledger| && BaselineOnly(SeenBy(setup, ledger, i))
    requires ledger[m].cell != CpuReference && forall n | i <= n < m :: ledger[n].cell == CpuReference
    ensures CacheResolvable(RunsFor(SeenBy(setup, ledger, i), M0)) && NextListed(setup, SeenBy(setup, ledger, i))
  {
    var seen := SeenBy(setup, ledger, m);
    assert GatedAt(setup, ledger, m) && ClaimInRange(ledger[m]) && PermittedAt(setup, ledger, m);
    NothingAcceptedYet(setup, SeenBy(setup, ledger, i));
    SeenButReference(setup, ledger, i, m);
    FullCellNotAdmitted(setup, ledger, i, m);
    AfterBaseline(setup, seen, ledger[m].replicate, ledger[m].spec);
    assert NextFits(SeenBy(setup, ledger, i), ledger[m].spec);
  }

  lemma NextClaimed(setup: Setup, ledger: seq<Claim>, next: Claim)
    requires LedgerInv(setup, ledger) && AllSettled(setup, ledger) && BaselineOnly(CompletedRuns(setup, ledger))
    requires CacheResolvable(RunsFor(CompletedRuns(setup, ledger), M0))
    requires NextFits(CompletedRuns(setup, ledger), next.spec)
    requires next.spec in ListedFor(setup, (next.spec.cell, 1))
    requires next == Claim(next.spec.cell, 1, next.spec, setup.binding, 0.0, MAX_CELL_SECONDS, Pending)
    ensures LedgerInv(setup, ledger + [next]) && Proper(setup, ledger + [next])
  {
    NextIsAdmitted(setup, CompletedRuns(setup, ledger), next.spec);
    FreeKey(setup, ledger, KeyOf(next));
    InvariantExtends(setup, ledger, next);
  }

  lemma GoesOnWhen(setup: Setup, ledger: seq<Claim>) returns (states: seq<State>, steps: seq<Step>)
    requires LedgerInv(setup, ledger) && AllSettled(setup, ledger) && BaselineOnly(CompletedRuns(setup, ledger))
    requires CacheResolvable(RunsFor(CompletedRuns(setup, ledger), M0))
    requires NextListed(setup, CompletedRuns(setup, ledger))
    ensures GoesOn(setup, ledger, states, steps, |ledger|)
  {
    var spec: CellSpec :| NextFits(CompletedRuns(setup, ledger), spec) && spec in ListedFor(setup, (spec.cell, 1));
    var next := Claim(spec.cell, 1, spec, setup.binding, 0.0, MAX_CELL_SECONDS, Pending);
    NextClaimed(setup, ledger, next);
    states, steps := InvariantIsReached(setup, ledger + [next]);
    RetimedHistory(setup, ledger, ledger + [next]);
  }

  /**
   For every ledger of a complete baseline: some run goes on from it with anything but the CPU reference if
   and only if the cache facts of the baseline are resolvable and the authority lists a first replicate that
   can follow.
   */
  lemma BaselineGoesOnExactly(setup: Setup, ledger: seq<Claim>)
    requires LedgerInv(setup, ledger) && AllSettled(setup, ledger) && BaselineOnly(CompletedRuns(setup, ledger))
    ensures (exists states, steps, j :: GoesOn(setup, ledger, states, steps, j))
            <==> CacheResolvable(RunsFor(CompletedRuns(setup, ledger), M0))
                 && NextListed(setup, CompletedRuns(setup, ledger))
  {
    if CacheResolvable(RunsFor(CompletedRuns(setup, ledger), M0)) && NextListed(setup, CompletedRuns(setup, ledger)) {
      var states, steps := GoesOnWhen(setup, ledger);
    }
    forall states, steps, j | GoesOn(setup, ledger, states, steps, j)
      ensures CacheResolvable(RunsFor(CompletedRuns(setup, ledger), M0))
      ensures NextListed(setup, CompletedRuns(setup, ledger))
    {
      GoesOnNeeds(setup, ledger, states, steps, j);
    }
  }

  // ---------------------------------------------------------------- a baseline that halts

  const ENABLED: CacheFacts := CacheFacts(true, false)
  const ACTIVATED: CacheFacts := CacheFacts(false, true)

  lemma MixedFacts(completed: Completed)
    requires Holds(completed, BaselineRuns(ENABLED, ACTIVATED, ENABLED), [])
    ensures BaselineOnly(completed) && !CacheResolvable(RunsFor(completed, M0))
  {
    var runs := BaselineRuns(ENABLED, ACTIVATED, ENABLED);
    assert runs[0] in runs && runs[1] in runs;
    RunsForSlots(completed, M0);
    assert completed.Keys == {(M0, 1), (M0, 2), (M0, 3)};
  }

  /**
   One replicate reports the cache enabled, another the activation witness, none both. A run from the
   initial state completes that baseline, from the given raw evidence, and no run goes on from there.
   */
  lemma CacheGateCanHalt(setup: Setup) returns (ledger: seq<Claim>, states: seq<State>, steps: seq<Step>)
    requires Allowed(setup, BaselineSpec(1)) && Allowed(setup, BaselineSpec(2)) && Allowed(setup, BaselineSpec(3))
    ensures ledger == BaselineClaims(setup, ENABLED, ACTIVATED, ENABLED) && AllSettled(setup, ledger)
    ensures IsRun(setup, states, steps) && FinalLedger(states) == RetimedAll(setup, ledger)
    ensures forall states', steps', j :: !GoesOn(setup, ledger, states', steps', j)
  {
    ledger := BaselineClaims(setup, ENABLED, ACTIVATED, ENABLED);
    BaselineStart(setup, ENABLED, ACTIVATED, ENABLED);
    MixedFacts(CompletedRuns(setup, ledger));
    states, steps := InvariantIsReached(setup, ledger);
    BaselineGoesOnExactly(setup, ledger);
  }
}
