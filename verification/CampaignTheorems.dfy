/** What every reachable campaign ledger satisfies. */
module CampaignTheorems {
  import opened Basics
  import opened Contract
  import opened Evidence
  import opened Campaign
  import opened AcceptedChain
  import opened Ledger
  import opened LedgerInvariant
  import opened StageOrder
  import opened GateStability

  // ---------------------------------------------------------------- stage order

  /**
   The ledger of every run is in stage order: M0, M1, M2, M3_PROFILE, M3_A, M3_B, M4, M5, apart from
   the CPU reference. Only an M3 cell after an M4 cell needs more: the M3 path was open when M4 was
   admitted, or the parity reference has not changed since.
   */
  lemma StagesInOrder(setup: Setup, states: seq<State>, steps: seq<Step>, n: nat, i: int, j: int)
    requires IsRun(setup, states, steps) && n < |states|
    requires 0 <= i < j < |states[n].ledger|
    requires states[n].ledger[i].cell != CpuReference && states[n].ledger[j].cell != CpuReference
    requires states[n].ledger[i].cell == M4 && states[n].ledger[j].cell in {M3Profile, M3A, M3B} ==>
               M3Shut(setup, states[n].ledger, i, j)
    ensures Rank(states[n].ledger[i].cell) <= Rank(states[n].ledger[j].cell)
  {
    RunKeepsInvariant(setup, states, steps, n);
    var ledger := states[n].ledger;
    if ledger[i].cell == M4 && ledger[j].cell in {M3Profile, M3A, M3B} {
      NoM3AfterM4(setup, ledger, i, j);
    }
    EarlierStageClosed(setup, ledger, i, j);
  }

  predicate OrderedReplicates(cell: Cell) {
    cell in {M0, M1, M2, M3A, M3B, M5}
  }

  lemma GateCountsReplicates(setup: Setup, completed: Completed, replicate: int, spec: CellSpec)
    requires AuthorizeCellStart(setup, completed, replicate, spec) && OrderedReplicates(spec.cell)
    ensures replicate == |RunsFor(completed, spec.cell)| + 1
  {
  }

  /** An admitted replicate has all smaller replicates of its cell before it. */
  lemma {:induction false} ReplicatesDense(setup: Setup, ledger: seq<Claim>, j: int)
    requires LedgerInv(setup, ledger) && 0 <= j < |ledger| && OrderedReplicates(ledger[j].cell)
    ensures forall r | 1 <= r < ledger[j].replicate :: (ledger[j].cell, r) in SeenBy(setup, ledger, j)
    decreases j
  {
    var seen, cell := SeenBy(setup, ledger, j), ledger[j].cell;
    assert GatedAt(setup, ledger, j) && ClaimInRange(ledger[j]);
    GateCountsReplicates(setup, seen, ledger[j].replicate, ledger[j].spec);
    RunsForSlots(seen, cell);
    SeenWellKeyed(setup, ledger, j);
    if ledger[j].replicate == 2 && (cell, 1) !in seen {
      var i := SeenOnly(setup, ledger, j, (cell, if (cell, 2) in seen then 2 else 3));
      ReplicatesDense(setup, ledger, i);
      SeenGrows(setup, ledger, i, j);
    }
  }

  lemma ReplicatesAscend(setup: Setup, ledger: seq<Claim>, i: int, j: int)
    requires LedgerInv(setup, ledger) && 0 <= i < j < |ledger|
    requires ledger[i].cell == ledger[j].cell && OrderedReplicates(ledger[i].cell)
    ensures ledger[i].replicate < ledger[j].replicate
  {
    ReplicatesDense(setup, ledger, i);
    assert ClaimInRange(ledger[i]) && ClaimInRange(ledger[j]);
    SeenWellKeyed(setup, ledger, j);
    SeenHas(setup, ledger, i, j);
    SeenGrows(setup, ledger, i, j);
  }

  /** M0, M1, M2, M3_A, M3_B and M5 replicates are admitted exactly in the order 1, 2, 3. */
  lemma ReplicatesInOrder(setup: Setup, states: seq<State>, steps: seq<Step>, n: nat, j: int)
    requires IsRun(setup, states, steps) && n < |states|
    requires 0 <= j < |states[n].ledger| && OrderedReplicates(states[n].ledger[j].cell)
    ensures forall i | 0 <= i < j && states[n].ledger[i].cell == states[n].ledger[j].cell ::
              states[n].ledger[i].replicate < states[n].ledger[j].replicate
    ensures forall r | 1 <= r < states[n].ledger[j].replicate ::
              Used(states[n].ledger[..j], (states[n].ledger[j].cell, r))
  {
    RunKeepsInvariant(setup, states, steps, n);
    var ledger := states[n].ledger;
    forall i | 0 <= i < j && ledger[i].cell == ledger[j].cell
      ensures ledger[i].replicate < ledger[j].replicate
    {
      ReplicatesAscend(setup, ledger, i, j);
    }
    forall r | 1 <= r < ledger[j].replicate
      ensures Used(ledger[..j], (ledger[j].cell, r))
    {
      ReplicatesDense(setup, ledger, j);
      var m := SeenOnly(setup, ledger, j, (ledger[j].cell, r));
      assert ledger[..j][m] in ledger[..j];
    }
  }

  /** M4 is the exception: its gate never looks at the replicate. */
  lemma M4ReplicatesUnordered(setup: Setup, completed: Completed, spec: CellSpec, r: int, r': int)
    requires spec.cell == M4
    ensures AuthorizeCellStart(setup, completed, r, spec) == AuthorizeCellStart(setup, completed, r', spec)
  {
  }

  /** The first claim of M0, M1 or M5 may set the profiler either way. */
  lemma ProfilerFree(setup: Setup, completed: Completed, replicate: int, spec: CellSpec, profiler: bool)
    requires spec.cell in {M0, M1, M5} && RunsFor(completed, spec.cell) == []
    ensures AuthorizeCellStart(setup, completed, replicate, spec.(controls := spec.controls.(profiler := profiler)))
            == AuthorizeCellStart(setup, completed, replicate, spec)
  {
    var other := spec.(controls := spec.controls.(profiler := profiler));
    if spec.cell == M5 {
      LastGateProfilerFree(setup, completed, replicate, spec, other);
    }
  }

  lemma LastGateProfilerFree(setup: Setup, completed: Completed, replicate: int, spec: CellSpec, other: CellSpec)
    requires spec.cell == M5 && RunsFor(completed, M5) == []
    requires other == spec.(controls := other.controls) && other.controls.treatment == spec.controls.treatment
    ensures AuthorizeCellStart(setup, completed, replicate, other)
            == AuthorizeCellStart(setup, completed, replicate, spec)
  {
    assert EffectiveControls(other).Some? == EffectiveControls(spec).Some?;
    assert AuthorizeFirstM5(setup, completed, other) == AuthorizeFirstM5(setup, completed, spec);
  }

  /** A claim of any other cell but the CPU reference sets it exactly for M3_PROFILE. */
  lemma ProfilerFixed(setup: Setup, completed: Completed, replicate: int, spec: CellSpec)
    requires AuthorizeCellStart(setup, completed, replicate, spec) && spec.cell in {M2, M3Profile, M3A, M3B, M4}
    ensures spec.controls.profiler == (spec.cell == M3Profile)
  {
  }

  /** What has run before a cell may: three valid M2, the profile, three successful M3_A. */
  lemma Prerequisites(setup: Setup, states: seq<State>, steps: seq<Step>, n: nat, j: int)
    requires IsRun(setup, states, steps) && n < |states| && 0 <= j < |states[n].ledger|
    ensures var ledger, cell := states[n].ledger, states[n].ledger[j].cell;
            var seen := SeenBy(setup, ledger, j);
            && (cell != M0 ==> ThreeValidRuns(RunsFor(seen, M0), false))
            && (cell in {M3Profile, M3A, M3B, M4, M5} ==> ThreeValidRuns(RunsFor(seen, M2), false))
            && (cell in {M3A, M3B} ==> ProfileComplete(seen))
            && (cell == M3B ==> ThreeValidRuns(RunsFor(seen, M3A), true))
            && (cell != M5 ==> RunsFor(seen, M5) == [])
            && (cell == M1 ==> AllCacheKnown(RunsFor(seen, M0)) && AnyCacheActive(RunsFor(seen, M0)))
            && (cell == CpuReference ==> exists r | r in RunsFor(seen, M0) :: r.status == Oom)
  {
    RunKeepsInvariant(setup, states, steps, n);
    OptionalCellsAt(setup, states[n].ledger, j);
    PrerequisitesAt(setup, states[n].ledger, j);
  }

  lemma OptionalCellsAt(setup: Setup, ledger: seq<Claim>, j: int)
    requires LedgerInv(setup, ledger) && 0 <= j < |ledger|
    ensures var cell, seen := ledger[j].cell, SeenBy(setup, ledger, j);
            && (cell == M1 ==> AllCacheKnown(RunsFor(seen, M0)) && AnyCacheActive(RunsFor(seen, M0)))
            && (cell == CpuReference ==> exists r | r in RunsFor(seen, M0) :: r.status == Oom)
  {
    var seen, spec, r := SeenBy(setup, ledger, j), ledger[j].spec, ledger[j].replicate;
    assert GatedAt(setup, ledger, j) && ClaimInRange(ledger[j]);
    if spec.cell == M1 {
      GateM1(setup, seen, r, spec);
    } else if spec.cell == CpuReference {
      GateCpu(setup, seen, r, spec);
    }
  }

  lemma PrerequisitesAt(setup: Setup, ledger: seq<Claim>, j: int)
    requires LedgerInv(setup, ledger) && 0 <= j < |ledger|
    ensures var cell, seen := ledger[j].cell, SeenBy(setup, ledger, j);
            && (cell != M0 ==> ThreeValidRuns(RunsFor(seen, M0), false))
            && (cell in {M3Profile, M3A, M3B, M4, M5} ==> ThreeValidRuns(RunsFor(seen, M2), false))
            && (cell in {M3A, M3B} ==> ProfileComplete(seen))
            && (cell == M3B ==> ThreeValidRuns(RunsFor(seen, M3A), true))
            && (cell != M5 ==> RunsFor(seen, M5) == [])
  {
    var seen, spec, r := SeenBy(setup, ledger, j), ledger[j].spec, ledger[j].replicate;
    assert GatedAt(setup, ledger, j) && ClaimInRange(ledger[j]);
    GateEarlyNeeds(setup, seen, r, spec);
    if spec.cell in {M3Profile, M3A, M3B, M4, M5} {
      GateLater(setup, seen, r, spec);
    }
    if spec.cell in {M3A, M3B} {
      GateM3Needs(setup, seen, r, spec);
    }
  }

  lemma GateEarlyNeeds(setup: Setup, seen: Completed, replicate: int, spec: CellSpec)
    requires AuthorizeCellStart(setup, seen, replicate, spec)
    ensures spec.cell != M0 ==> ThreeValidRuns(RunsFor(seen, M0), false)
    ensures spec.cell != M5 ==> RunsFor(seen, M5) == []
  {
    if spec.cell != M0 {
      GateNeedsBaseline(setup, seen, replicate, spec);
    }
    if spec.cell != M5 {
      GateStopsAfterM5(setup, seen, replicate, spec);
    }
  }

  lemma GateM3Needs(setup: Setup, seen: Completed, replicate: int, spec: CellSpec)
    requires AuthorizeCellStart(setup, seen, replicate, spec) && (spec.cell == M3A || spec.cell == M3B)
    ensures ProfileComplete(seen)
    ensures spec.cell == M3B ==> ThreeValidRuns(RunsFor(seen, M3A), true)
  {
    GateM3Treatment(setup, seen, replicate, spec);
  }

  // ---------------------------------------------------------------- one condition, one set of controls

  lemma RunHasSpecControls(setup: Setup, claim: Claim)
    requires SettledClaim(setup, claim)
    ensures EffectiveControls(claim.spec) == Some(RunOf(setup, claim).controls)
  {
  }

  /** The run the gate compares controls with is one of an earlier claim. */
  lemma FirstSeen(setup: Setup, ledger: seq<Claim>, j: int, cell: Cell) returns (m: int)
    requires Orderly(setup, ledger) && Visible(setup, ledger, j)
    requires RunsFor(SeenBy(setup, ledger, j), cell) != []
    ensures 0 <= m < j && ledger[m].cell == cell && SettledClaim(setup, ledger[m])
    ensures RunsFor(SeenBy(setup, ledger, j), cell)[0] == RunOf(setup, ledger[m])
  {
    var seen := SeenBy(setup, ledger, j);
    RunsForSlots(seen, cell);
    var first := if (cell, 1) in seen then 1 else if (cell, 2) in seen then 2 else 3;
    m := SeenOnly(setup, ledger, j, (cell, first));
    SeenHas(setup, ledger, m, j);
  }

  lemma GateComparesControls(setup: Setup, ledger: seq<Claim>, i: int, j: int) returns (m: int)
    requires LedgerInv(setup, ledger) && 0 <= i < j < |ledger| && ledger[i].cell == ledger[j].cell
    ensures 0 <= m < j && ledger[m].cell == ledger[j].cell && SettledClaim(setup, ledger[m])
    ensures EffectiveControls(ledger[j].spec) == Some(RunOf(setup, ledger[m]).controls)
  {
    assert GatedAt(setup, ledger, j) && ClaimInRange(ledger[j]);
    EarlierCellSeen(setup, ledger, i, j);
    GateSameControls(setup, SeenBy(setup, ledger, j), ledger[j].replicate, ledger[j].spec);
    m := FirstSeen(setup, ledger, j, ledger[j].cell);
  }

  /** All runs of a cell carry the same controls. */
  lemma {:induction false} CellControlsFixed(setup: Setup, ledger: seq<Claim>, i: int, j: int)
    requires LedgerInv(setup, ledger) && 0 <= i < j < |ledger| && ledger[i].cell == ledger[j].cell
    ensures SettledClaim(setup, ledger[i])
    ensures EffectiveControls(ledger[j].spec) == Some(RunOf(setup, ledger[i]).controls)
    decreases j
  {
    assert SettledClaim(setup, ledger[i]);
    var m := GateComparesControls(setup, ledger, i, j);
    if m < i {
      CellControlsFixed(setup, ledger, m, i);
      RunHasSpecControls(setup, ledger[i]);
    } else if i < m {
      CellControlsFixed(setup, ledger, i, m);
      RunHasSpecControls(setup, ledger[m]);
    }
  }

  lemma SeenControlsFixed(setup: Setup, ledger: seq<Claim>, j: int, cell: Cell, r: int, r': int)
    requires LedgerInv(setup, ledger) && Visible(setup, ledger, j)
    requires (cell, r) in SeenBy(setup, ledger, j) && (cell, r') in SeenBy(setup, ledger, j)
    ensures SeenBy(setup, ledger, j)[(cell, r)].controls == SeenBy(setup, ledger, j)[(cell, r')].controls
  {
    var a := SeenOnly(setup, ledger, j, (cell, r));
    var b := SeenOnly(setup, ledger, j, (cell, r'));
    SeenHas(setup, ledger, a, j);
    SeenHas(setup, ledger, b, j);
    if a < b {
      CellControlsFixed(setup, ledger, a, b);
      RunHasSpecControls(setup, ledger[b]);
    } else if b < a {
      CellControlsFixed(setup, ledger, b, a);
      RunHasSpecControls(setup, ledger[a]);
    }
  }

  lemma ReplicatesAgree(setup: Setup, ledger: seq<Claim>, j: int, cell: Cell)
    requires LedgerInv(setup, ledger) && Visible(setup, ledger, j)
    ensures SameTreatment(RunsFor(SeenBy(setup, ledger, j), cell))
  {
    var seen := SeenBy(setup, ledger, j);
    RunsForSlots(seen, cell);
    forall r, r' | 1 <= r <= 3 && 1 <= r' <= 3 && (cell, r) in seen && (cell, r') in seen
      ensures seen[(cell, r)].controls == seen[(cell, r')].controls
    {
      SeenControlsFixed(setup, ledger, j, cell, r, r');
    }
  }

  // ---------------------------------------------------------------- when the re-derivation refuses

  lemma M3BNeedsM3A(setup: Setup, ledger: seq<Claim>, j: int)
    requires LedgerInv(setup, ledger) && Visible(setup, ledger, j)
    requires RunsFor(SeenBy(setup, ledger, j), M3B) != []
    ensures ThreeValidRuns(RunsFor(SeenBy(setup, ledger, j), M3A), true)
  {
    var i := SeenCellEarlier(setup, ledger, j, M3B);
    PrerequisitesAt(setup, ledger, i);
    SeenGrows(setup, ledger, i, j);
    FullCellStays(SeenBy(setup, ledger, i), SeenBy(setup, ledger, j), M3A);
  }

  /** Both M3 alternatives qualify against the condition accepted through M2. */
  ghost predicate BothM3Qualify(setup: Setup, completed: Completed) {
    && ThreeValidRuns(RunsFor(completed, M0), false)
    && QualifiedTreatments(setup, completed, 2).Ok?
    && var accepted := QualifiedTreatments(setup, completed, 2).value;
       InForceCandidate(setup, completed, M3A, accepted) != []
        && InForceCandidate(setup, completed, M3B, accepted) != []
  }

  lemma ThroughM2NeverRefuses(setup: Setup, completed: Completed)
    requires SameTreatment(RunsFor(completed, M0)) && SameTreatment(RunsFor(completed, M1))
    ensures QualifiedTreatments(setup, completed, 1).Ok? && QualifiedTreatments(setup, completed, 2).Ok?
  {
    if ThreeValidRuns(RunsFor(completed, M0), false) {
      assert QualifiedTreatments(setup, completed, 0) == Ok([]);
      QualifiedUnfold(setup, completed, 1, []);
      assert StageM1(setup, completed, []).Ok?;
      QualifiedUnfold(setup, completed, 2, QualifiedTreatments(setup, completed, 1).value);
    }
  }

  lemma M3StageOutcome(setup: Setup, completed: Completed, accepted: seq<Accepted>)
    requires RunsFor(completed, M3B) != [] ==> ThreeValidRuns(RunsFor(completed, M3A), true)
    ensures StageM3(setup, completed, accepted).Ok? <==>
              InForceCandidate(setup, completed, M3A, accepted) == []
              || InForceCandidate(setup, completed, M3B, accepted) == []
    ensures StageM3(setup, completed, accepted).Err? ==> StageM3(setup, completed, accepted) == Err(AmbiguousM3)
  {
  }

  /**
   On reachable evidence the accepted treatments are not derivable exactly when both M3 alternatives
   qualify; inconsistent replicates and an M3_B ahead of its M3_A never occur.
   */
  lemma OnlyAmbiguityRefuses(setup: Setup, ledger: seq<Claim>, j: int)
    requires LedgerInv(setup, ledger) && Visible(setup, ledger, j)
    ensures var seen := SeenBy(setup, ledger, j);
            && QualifiedTreatments(setup, seen, 2).Ok?
            && (QualifiedTreatments(setup, seen, 4).Err? <==> BothM3Qualify(setup, seen))
            && (QualifiedTreatments(setup, seen, 4).Err? ==> QualifiedTreatments(setup, seen, 4) == Err(AmbiguousM3))
  {
    var seen := SeenBy(setup, ledger, j);
    ReplicatesAgree(setup, ledger, j, M0);
    ReplicatesAgree(setup, ledger, j, M1);
    ThroughM2NeverRefuses(setup, seen);
    if RunsFor(seen, M3B) != [] {
      M3BNeedsM3A(setup, ledger, j);
    }
    if ThreeValidRuns(RunsFor(seen, M0), false) {
      LateStagesOutcome(setup, seen, QualifiedTreatments(setup, seen, 2).value);
    }
  }

  lemma LateStagesOutcome(setup: Setup, completed: Completed, accepted: seq<Accepted>)
    requires ThreeValidRuns(RunsFor(completed, M0), false)
    requires QualifiedTreatments(setup, completed, 2) == Ok(accepted)
    requires RunsFor(completed, M3B) != [] ==> ThreeValidRuns(RunsFor(completed, M3A), true)
    ensures QualifiedTreatments(setup, completed, 4).Err? <==>
              InForceCandidate(setup, completed, M3A, accepted) != []
              && InForceCandidate(setup, completed, M3B, accepted) != []
    ensures QualifiedTreatments(setup, completed, 4).Err? ==>
              QualifiedTreatments(setup, completed, 4) == Err(AmbiguousM3)
  {
    M3StageOutcome(setup, completed, accepted);
    QualifiedUnfold(setup, completed, 3, accepted);
    var third := StageM3(setup, completed, accepted);
    assert QualifiedTreatments(setup, completed, 3) == third;
    if third.Ok? {
      QualifiedUnfold(setup, completed, 4, third.value);
    }
  }

  // ---------------------------------------------------------------- attention backends

  lemma {:induction false} IntersectionIsCommon(calls: seq<set<Backend>>, backend: Backend)
    requires calls != []
    ensures backend in Intersection(calls) <==> forall i | 0 <= i < |calls| :: backend in calls[i]
  {
    if |calls| > 1 {
      IntersectionIsCommon(calls[1..], backend);
      if forall i | 0 <= i < |calls[1..]| :: backend in calls[1..][i] {
        assert forall i | 1 <= i < |calls| :: calls[i] == calls[1..][i - 1];
      } else {
        var i :| 0 <= i < |calls[1..]| && backend !in calls[1..][i];
        assert calls[i + 1] == calls[1..][i];
      }
    }
  }

  /** A backend is eligible exactly if every observed call could use it and it is not the baseline's own. */
  lemma EligibleMeans(completed: Completed, backend: Backend)
    requires ProfileComplete(completed) && ObservedBackend(completed).Some?
    ensures var calls := RunsFor(completed, M3Profile)[0].sdpaCalls;
            backend in EligibleBackends(completed) <==>
              calls != [] && (forall i | 0 <= i < |calls| :: backend in calls[i])
              && ObservedBackend(completed) != Some(backend)
  {
    var calls := RunsFor(completed, M3Profile)[0].sdpaCalls;
    if calls != [] {
      IntersectionIsCommon(calls, backend);
    }
    if {} in calls {
      var i :| 0 <= i < |calls| && calls[i] == {};
      assert backend !in calls[i];
    }
  }

  lemma GateBackend(setup: Setup, completed: Completed, replicate: int, spec: CellSpec)
    requires AuthorizeCellStart(setup, completed, replicate, spec) && (spec.cell == M3A || spec.cell == M3B)
    ensures spec.controls.treatment.backend.Some?
    ensures spec.controls.treatment.backend.value in OpenBackends(completed, spec.cell)
  {
  }

  lemma OpenIsEligible(completed: Completed, cell: Cell, backend: Backend)
    requires backend in OpenBackends(completed, cell) && (cell == M3A || cell == M3B)
    ensures backend in EligibleBackends(completed) && ProfileComplete(completed) && ObservedBackend(completed).Some?
    ensures cell == M3B ==> RunsFor(completed, M3A) != []
                            && RunsFor(completed, M3A)[0].controls.treatment.backend != Some(backend)
  {
  }

  /**
   In every run an M3_A or M3_B cell forces a backend that every profiled attention call could use,
   other than the one the baseline used, and M3_B another than M3_A.
   */
  lemma M3BackendsSound(setup: Setup, states: seq<State>, steps: seq<Step>, n: nat, j: int) returns (backend: Backend)
    requires IsRun(setup, states, steps) && n < |states|
    requires 0 <= j < |states[n].ledger| && states[n].ledger[j].cell in {M3A, M3B}
    ensures states[n].ledger[j].spec.controls.treatment.backend == Some(backend)
    ensures var seen := SeenBy(setup, states[n].ledger, j);
            && ProfileComplete(seen) && ObservedBackend(seen) != Some(backend)
            && (forall i | 0 <= i < |RunsFor(seen, M3Profile)[0].sdpaCalls| ::
                  backend in RunsFor(seen, M3Profile)[0].sdpaCalls[i])
            && (states[n].ledger[j].cell == M3B ==>
                  RunsFor(seen, M3A) != [] && RunsFor(seen, M3A)[0].controls.treatment.backend != Some(backend))
  {
    RunKeepsInvariant(setup, states, steps, n);
    backend := BackendAt(setup, states[n].ledger, j);
  }

  lemma BackendAt(setup: Setup, ledger: seq<Claim>, j: int) returns (backend: Backend)
    requires LedgerInv(setup, ledger) && 0 <= j < |ledger| && ledger[j].cell in {M3A, M3B}
    ensures ledger[j].spec.controls.treatment.backend == Some(backend)
    ensures var seen := SeenBy(setup, ledger, j);
            && ProfileComplete(seen) && ObservedBackend(seen) != Some(backend)
            && (forall i | 0 <= i < |RunsFor(seen, M3Profile)[0].sdpaCalls| ::
                  backend in RunsFor(seen, M3Profile)[0].sdpaCalls[i])
            && (ledger[j].cell == M3B ==>
                  RunsFor(seen, M3A) != [] && RunsFor(seen, M3A)[0].controls.treatment.backend != Some(backend))
  {
    var seen := SeenBy(setup, ledger, j);
    assert GatedAt(setup, ledger, j) && ClaimInRange(ledger[j]);
    GateBackend(setup, seen, ledger[j].replicate, ledger[j].spec);
    backend := ledger[j].spec.controls.treatment.backend.value;
    OpenIsEligible(seen, ledger[j].cell, backend);
    EligibleMeans(seen, backend);
  }
}
