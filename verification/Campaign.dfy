/**
 Evidence-derived campaign sequencing. Every gate is re-derived from the completed evidence; a
 `PermissionError` (or any other error that stops a claim) is an `Err`.
 */
module Campaign {
  import opened Basics
  import opened Contract
  import opened Evidence
  import TokenBatches

  /** A claim file: one replicate of one cell. */
  type Key = (Cell, int)

  /** The reduced runs of all completed claims, by claim file. */
  type Completed = map<Key, Run>

  /** `accepts(cell, baseline runs, treatment runs, parity reference)`. */
  type AcceptanceGate = (Cell, seq<Run>, seq<Run>, Option<Run>) -> bool

  /**
   What stays fixed during a campaign: the binding, the exact specs the authority allows per
   replicate, and the gate a treatment has to pass. The sequencing never looks inside the gate;
   module Acceptance defines the one the campaign uses.
   */
  datatype Setup = Setup(binding: Binding, authority: map<Key, set<CellSpec>>, accepts: AcceptanceGate)

  /** The first run of the treatment differs from the first baseline run in the cell's own control only. */
  ghost predicate OneControlChanged(cell: Cell, baseline: seq<Run>, runs: seq<Run>) {
    && baseline != [] && runs != [] && ControlChange(cell).Some?
    && ChangesOnly(baseline[0].controls.treatment, runs[0].controls.treatment, ControlChange(cell).value)
  }

  /** A gate that accepts single-control changes only. */
  ghost predicate SingleVariable(setup: Setup) {
    forall cell: Cell, baseline: seq<Run>, runs: seq<Run>, reference: Option<Run> ::
      setup.accepts(cell, baseline, runs, reference) && (forall r | r in runs :: r.cell == cell) ==>
        OneControlChanged(cell, baseline, runs)
  }

  function Slot(completed: Completed, cell: Cell, replicate: int): seq<Run> {
    if (cell, replicate) in completed then [completed[(cell, replicate)]] else []
  }

  function RunsFrom(completed: Completed, cell: Cell, replicate: int): seq<Run>
    decreases 4 - replicate
  {
    if replicate > 3 then [] else Slot(completed, cell, replicate) + RunsFrom(completed, cell, replicate + 1)
  }

  /** The runs of one cell, sorted by replicate; a claim's replicate is 1, 2 or 3. */
  function RunsFor(completed: Completed, cell: Cell): seq<Run> {
    RunsFrom(completed, cell, 1)
  }

  predicate RunGood(run: Run, fullSuccess: bool) {
    && run.valid
    && (if fullSuccess then run.status == Success && run.fullWorkloadComplete && run.correctnessOk
        else run.status in {Success, Oom})
  }

  predicate ThreeValidRuns(runs: seq<Run>, fullSuccess: bool) {
    && |runs| == 3
    && runs[0].replicate == 1 && runs[1].replicate == 2 && runs[2].replicate == 3
    && RunGood(runs[0], fullSuccess) && RunGood(runs[1], fullSuccess) && RunGood(runs[2], fullSuccess)
  }

  predicate SameTreatment(runs: seq<Run>) {
    forall i | 0 <= i < |runs| :: runs[i].controls.treatment == runs[0].controls.treatment
  }

  function FirstCorrect(runs: seq<Run>): Option<Run> {
    if runs == [] then None
    else if runs[0].vectors.Some? && runs[0].correctnessOk then Some(runs[0])
    else FirstCorrect(runs[1..])
  }

  /** The parity reference: the first correct M0 run, or else the one CPU reference run. */
  function ReferenceRun(completed: Completed): Option<Run> {
    var own := FirstCorrect(RunsFor(completed, M0));
    var cpu := RunsFor(completed, CpuReference);
    if own.Some? then own
    else if |cpu| == 1 && cpu[0].correctnessOk then Some(cpu[0])
    else None
  }

  // ---------------------------------------------------------------- accepted treatments

  /** The errors the re-derivation itself can raise. */
  datatype Refusal = InconsistentReplicates | M3BBeforeM3A | AmbiguousM3 | ControlsMismatch

  /** An accepted treatment cell with the treatment controls its runs carried. */
  datatype Accepted = Accepted(cell: Cell, treatment: Treatment)

  function QualifiedCandidate(setup: Setup, cell: Cell, baseline: seq<Run>, treatment: seq<Run>,
                              reference: Option<Run>): seq<Accepted>
  {
    if treatment != [] && setup.accepts(cell, baseline, treatment, reference) then
      [Accepted(cell, treatment[0].controls.treatment)]
    else []
  }

  predicate CacheSilent(runs: seq<Run>) {
    forall r | r in runs :: !r.cacheConfigEnabled && !r.cacheWitness
  }

  /** The condition a stage is compared with: the last accepted cell, or the baseline. */
  function LastCell(qualified: seq<Accepted>): Cell {
    if qualified == [] then M0 else qualified[|qualified| - 1].cell
  }

  function InForceCandidate(setup: Setup, completed: Completed, cell: Cell, qualified: seq<Accepted>): seq<Accepted> {
    QualifiedCandidate(setup, cell, RunsFor(completed, LastCell(qualified)), RunsFor(completed, cell),
                       ReferenceRun(completed))
  }

  function M1Decision(m0: seq<Run>, m1: seq<Run>, candidate: seq<Accepted>): Result<seq<Accepted>, Refusal> {
    if !SameTreatment(m1) || !SameTreatment(m0) then Err(InconsistentReplicates)
    else if ThreeValidRuns(m1, true) && CacheSilent(m1) then Ok(candidate)
    else Ok([])
  }

  function StageM1(setup: Setup, completed: Completed, qualified: seq<Accepted>): Result<seq<Accepted>, Refusal> {
    match M1Decision(RunsFor(completed, M0), RunsFor(completed, M1), InForceCandidate(setup, completed, M1, qualified))
    case Err(e) => Err(e)
    case Ok(accepted) => Ok(qualified + accepted)
  }

  function StageM2(setup: Setup, completed: Completed, qualified: seq<Accepted>): Result<seq<Accepted>, Refusal> {
    if ThreeValidRuns(RunsFor(completed, M2), true) then
      Ok(qualified + InForceCandidate(setup, completed, M2, qualified))
    else Ok(qualified)
  }

  function M3Candidates(setup: Setup, completed: Completed, qualified: seq<Accepted>): seq<Accepted> {
    InForceCandidate(setup, completed, M3A, qualified) + InForceCandidate(setup, completed, M3B, qualified)
  }

  function StageM3(setup: Setup, completed: Completed, qualified: seq<Accepted>): Result<seq<Accepted>, Refusal> {
    if RunsFor(completed, M3B) != [] && !ThreeValidRuns(RunsFor(completed, M3A), true) then
      Err(M3BBeforeM3A)
    else if |M3Candidates(setup, completed, qualified)| > 1 then
      Err(AmbiguousM3)
    else Ok(qualified + M3Candidates(setup, completed, qualified))
  }

  function StageM4(setup: Setup, completed: Completed, qualified: seq<Accepted>): Result<seq<Accepted>, Refusal> {
    if ThreeValidRuns(RunsFor(completed, M4), true) then
      Ok(qualified + InForceCandidate(setup, completed, M4, qualified))
    else Ok(qualified)
  }

  function AddTreatmentStage(setup: Setup, completed: Completed, stage: int, qualified: seq<Accepted>):
    Result<seq<Accepted>, Refusal>
  {
    if stage == 1 then StageM1(setup, completed, qualified)
    else if stage == 2 then StageM2(setup, completed, qualified)
    else if stage == 3 then StageM3(setup, completed, qualified)
    else if stage == 4 then StageM4(setup, completed, qualified)
    else Ok(qualified)
  }

  /** `_qualified_treatments`: the cumulative accepted treatments through stage 1 (M1) to 4 (M4). */
  function QualifiedTreatments(setup: Setup, completed: Completed, through: nat): Result<seq<Accepted>, Refusal> {
    if through == 0 || !ThreeValidRuns(RunsFor(completed, M0), false) then Ok([])
    else
      match QualifiedTreatments(setup, completed, through - 1)
      case Err(e) => Err(e)
      case Ok(qualified) => AddTreatmentStage(setup, completed, through, qualified)
  }

  // ---------------------------------------------------------------- active condition

  /** The condition whose controls are accepted through one stage, with its raw replicates. */
  datatype Active = Active(cell: Cell, treatment: Treatment, runs: seq<Run>)

  function ActiveCondition(setup: Setup, completed: Completed, through: nat): Result<Option<Active>, Refusal> {
    if !ThreeValidRuns(RunsFor(completed, M0), false) then Ok(None)
    else if !SameTreatment(RunsFor(completed, M0)) then Err(InconsistentReplicates)
    else
      match QualifiedTreatments(setup, completed, through)
      case Err(e) => Err(e)
      case Ok(accepted) => ActiveFrom(completed, accepted)
  }

  function ActiveFrom(completed: Completed, accepted: seq<Accepted>): Result<Option<Active>, Refusal> {
    var runs := RunsFor(completed, LastCell(accepted));
    if runs == [] || !SameTreatment(runs)
       || (accepted != [] && runs[0].controls.treatment != accepted[|accepted| - 1].treatment) then
      Err(ControlsMismatch)
    else
      Ok(Some(Active(LastCell(accepted), runs[0].controls.treatment, runs)))
  }

  // ---------------------------------------------------------------- cache and opening gates

  datatype CacheState =
    | Unresolved
    | CacheInconclusive
    | DisabledByBaseline
    | BaselineCacheUnactivated
    | M1RequiredOrFailed
    | DisabledByM1
    | BaselineCacheRetained

  predicate AllCacheKnown(runs: seq<Run>) {
    forall r | r in runs :: r.cacheConfigKnown
  }

  predicate AnyCacheEnabled(runs: seq<Run>) {
    exists r | r in runs :: r.cacheConfigEnabled
  }

  predicate AnyCacheWitness(runs: seq<Run>) {
    exists r | r in runs :: r.cacheWitness
  }

  predicate AnyCacheActive(runs: seq<Run>) {
    exists r | r in runs :: r.cacheConfigEnabled && r.cacheWitness
  }

  function CacheStateOf(setup: Setup, completed: Completed): Result<CacheState, Refusal> {
    var m0 := RunsFor(completed, M0);
    if !ThreeValidRuns(m0, false) then Ok(Unresolved)
    else if !AllCacheKnown(m0) then Ok(CacheInconclusive)
    else if !AnyCacheEnabled(m0) then Ok(DisabledByBaseline)
    else if !AnyCacheWitness(m0) then Ok(BaselineCacheUnactivated)
    else if !ThreeValidRuns(RunsFor(completed, M1), false) then Ok(M1RequiredOrFailed)
    else
      match QualifiedTreatments(setup, completed, 1)
      case Err(e) => Err(e)
      case Ok(qualified) =>
        if exists a | a in qualified :: a.cell == M1 then Ok(DisabledByM1) else Ok(BaselineCacheRetained)
  }

  predicate CacheAccepted(state: CacheState) {
    state in {DisabledByBaseline, DisabledByM1, BaselineCacheRetained, BaselineCacheUnactivated}
  }

  /** `value >= max(256 MiB, peak * 0.05)`, on integers. */
  predicate ReachesForwardThreshold(increment: int, peak: int) {
    increment >= MATERIAL_MEMORY_FLOOR_BYTES && 20 * increment >= peak
  }

  predicate ForwardTrigger(runs: seq<Run>)
    requires |runs| == 3
  {
    && runs[0].forwardPeak.Some? && runs[1].forwardPeak.Some? && runs[2].forwardPeak.Some?
    && runs[0].forwardIncrement.Some? && runs[1].forwardIncrement.Some? && runs[2].forwardIncrement.Some?
    && var peak := Median3(runs[0].forwardPeak.value, runs[1].forwardPeak.value, runs[2].forwardPeak.value);
       var i0, i1, i2 := runs[0].forwardIncrement.value, runs[1].forwardIncrement.value, runs[2].forwardIncrement.value;
       && ReachesForwardThreshold(Median3(i0, i1, i2), peak)
       && (if ReachesForwardThreshold(i0, peak) then 1 else 0)
          + (if ReachesForwardThreshold(i1, peak) then 1 else 0)
          + (if ReachesForwardThreshold(i2, peak) then 1 else 0) >= 2
  }

  predicate M3Opened(runs: seq<Run>) {
    && ThreeValidRuns(runs, false)
    && (|| ForwardTrigger(runs)
        || (if runs[0].forwardOom then 1 else 0) + (if runs[1].forwardOom then 1 else 0)
           + (if runs[2].forwardOom then 1 else 0) >= 2)
  }

  /** `_m3_opening_supported`: the accepted state through M2 spends materially on the forward pass. */
  function M3OpeningSupported(setup: Setup, completed: Completed): Result<bool, Refusal> {
    match ActiveCondition(setup, completed, 2)
    case Err(e) => Err(e)
    case Ok(active) => Ok(active.Some? && M3Opened(active.value.runs))
  }

  /** The frozen token partitions save at least 5% of the padded tokens of the fixed batch. */
  predicate PartitionsSave(counts: seq<int>) {
    var partitions := TokenBatches.GreedyTokenPartitions(counts);
    && partitions.Ok? && partitions.value.Some? && |partitions.value.value| > 1
    && var fixed := |counts| * TokenBatches.MaxCount(counts, Indices(|counts|));
       var partitioned := TokenBatches.PaddedTokens(counts, partitions.value.value);
       partitioned < fixed && 20 * (fixed - partitioned) >= fixed
  }

  predicate UsableCounts(run: Run) {
    run.tokenCounts.Some? && |run.tokenCounts.value| == 32 && forall c | c in run.tokenCounts.value :: c > 0
  }

  predicate M4Opened(runs: seq<Run>) {
    && ThreeValidRuns(runs, false)
    && UsableCounts(runs[0]) && UsableCounts(runs[1]) && UsableCounts(runs[2])
    && runs[1].tokenCounts == runs[0].tokenCounts && runs[2].tokenCounts == runs[0].tokenCounts
    && PartitionsSave(runs[0].tokenCounts.value)
  }

  function M4OpeningSupported(setup: Setup, completed: Completed): Result<bool, Refusal> {
    match ActiveCondition(setup, completed, 3)
    case Err(e) => Err(e)
    case Ok(active) => Ok(active.Some? && M4Opened(active.value.runs))
  }

  // ---------------------------------------------------------------- attention backends

  predicate ProfileComplete(completed: Completed) {
    |RunsFor(completed, M3Profile)| == 1 && RunsFor(completed, M3Profile)[0].fullWorkloadComplete
  }

  function Union(sets: seq<set<Backend>>): set<Backend> {
    if sets == [] then {} else sets[0] + Union(sets[1..])
  }

  /** The one backend the profiled operators name; `None` stands for UNKNOWN. */
  function ObservedBackend(completed: Completed): Option<Backend> {
    var profile := RunsFor(completed, M3Profile);
    if !ProfileComplete(completed) || profile[0].operators.None? then None
    else
      var ops := profile[0].operators.value;
      var observed := Union(ops);
      if observed == {FlashAttention} then Some(FlashAttention)
      else if observed == {EfficientAttention} then Some(EfficientAttention)
      else if observed == {CudnnAttention} then Some(CudnnAttention)
      else if observed == {Math} then Some(Math)
      else None
  }

  function Intersection(calls: seq<set<Backend>>): set<Backend>
    requires calls != []
  {
    if |calls| == 1 then calls[0] else calls[0] * Intersection(calls[1..])
  }

  /** The backends eligible for every observed call, without the observed baseline. */
  function EligibleBackends(completed: Completed): set<Backend> {
    var profile := RunsFor(completed, M3Profile);
    if !ProfileComplete(completed) || ObservedBackend(completed).None? then {}
    else if profile[0].sdpaCalls == [] || {} in profile[0].sdpaCalls then {}
    else Intersection(profile[0].sdpaCalls) - {ObservedBackend(completed).value}
  }

  predicate AllReplicatesAuthorized(setup: Setup, cell: Cell) {
    forall r | 1 <= r <= 3 :: (cell, r) in setup.authority && setup.authority[(cell, r)] != {}
  }

  function BackendSet(run: Run): set<Backend> {
    if run.controls.treatment.backend.Some? then {run.controls.treatment.backend.value} else {}
  }

  /** The opened M3 path is resolved: profiled, and every eligible alternative tried that may be. */
  predicate M3PathResolved(setup: Setup, completed: Completed) {
    && ProfileComplete(completed)
    && ObservedBackend(completed).Some?
    && var eligible := EligibleBackends(completed);
       var m3a := RunsFor(completed, M3A);
       var m3b := RunsFor(completed, M3B);
       || eligible == {}
       || (&& AllReplicatesAuthorized(setup, M3A)
           && ThreeValidRuns(m3a, true)
           && (|| eligible - BackendSet(m3a[0]) == {}
               || (&& AllReplicatesAuthorized(setup, M3B)
                   && ThreeValidRuns(m3b, true)
                   && m3b[0].controls.treatment.backend.Some?
                   && m3b[0].controls.treatment.backend.value in eligible - BackendSet(m3a[0]))))
  }

  function M3TreatmentCompleted(setup: Setup, completed: Completed): Result<bool, Refusal> {
    match M3OpeningSupported(setup, completed)
    case Err(e) => Err(e)
    case Ok(supported) => Ok(!supported || M3PathResolved(setup, completed))
  }

  // ---------------------------------------------------------------- admission

  predicate AuthorizeM0(completed: Completed, replicate: int) {
    && (forall k | k in completed :: k.0 == M0)
    && replicate == |RunsFor(completed, M0)| + 1
  }

  predicate AuthorizeM1(completed: Completed, replicate: int) {
    && ThreeValidRuns(RunsFor(completed, M0), false)
    && replicate == |RunsFor(completed, M1)| + 1
    && AllCacheKnown(RunsFor(completed, M0))
    && AnyCacheActive(RunsFor(completed, M0))
  }

  predicate AuthorizeCpu(completed: Completed) {
    && ThreeValidRuns(RunsFor(completed, M0), false)
    && exists r | r in RunsFor(completed, M0) :: r.status == Oom
  }

  /** The active condition through a stage is derivable and `controls` is it with one change. */
  predicate ControlsAre(active: Result<Option<Active>, Refusal>, controls: Controls, change: Treatment -> Treatment,
                        profiler: bool)
  {
    && active.Ok? && active.value.Some?
    && controls == Controls(change(active.value.value.treatment), profiler)
  }

  predicate AuthorizeM2(setup: Setup, completed: Completed, replicate: int, controls: Controls) {
    && replicate == |RunsFor(completed, M2)| + 1
    && ControlsAre(ActiveCondition(setup, completed, 1), controls,
                   (t: Treatment) => t.(dtype := DirectFp16), false)
  }

  predicate AuthorizeM3Profile(setup: Setup, completed: Completed, replicate: int, controls: Controls) {
    && M3OpeningSupported(setup, completed) == Ok(true)
    && replicate == 1
    && ControlsAre(ActiveCondition(setup, completed, 2), controls, (t: Treatment) => t, true)
  }

  /** The backends an M3 treatment cell may still select. */
  function OpenBackends(completed: Completed, cell: Cell): set<Backend> {
    if cell == M3A then EligibleBackends(completed)
    else if ThreeValidRuns(RunsFor(completed, M3A), true) then
      EligibleBackends(completed) - BackendSet(RunsFor(completed, M3A)[0])
    else {}
  }

  predicate AuthorizeM3Treatment(setup: Setup, completed: Completed, cell: Cell, replicate: int, controls: Controls) {
    && M3OpeningSupported(setup, completed) == Ok(true)
    && ProfileComplete(completed)
    && ObservedBackend(completed).Some?
    && replicate == |RunsFor(completed, cell)| + 1
    && controls.treatment.backend.Some?
    && controls.treatment.backend.value in OpenBackends(completed, cell)
    && ControlsAre(ActiveCondition(setup, completed, 2), controls,
                   (t: Treatment) => t.(backend := controls.treatment.backend), false)
  }

  predicate AuthorizeM4(setup: Setup, completed: Completed, controls: Controls) {
    && M4OpeningSupported(setup, completed) == Ok(true)
    && M3TreatmentCompleted(setup, completed) == Ok(true)
    && (M3OpeningSupported(setup, completed) == Ok(true) ==> |RunsFor(completed, M3Profile)| == 1)
    && ControlsAre(ActiveCondition(setup, completed, 3), controls,
                   (t: Treatment) => t.(batch := M4Partitions), false)
  }

  predicate AuthorizeFirstM5(setup: Setup, completed: Completed, spec: CellSpec) {
    && M3TreatmentCompleted(setup, completed) == Ok(true)
    && M4OpeningSupported(setup, completed).Ok?
    && (M4OpeningSupported(setup, completed).value ==> ThreeValidRuns(RunsFor(completed, M4), true))
    && spec.selected.Some?
    && var eligible := QualifiedTreatments(setup, completed, 4);
       eligible.Ok? && eligible.value != [] && eligible.value[|eligible.value| - 1].treatment == spec.selected.value
  }

  /** The gate every cell from M2 on passes first. */
  predicate CacheGate(setup: Setup, completed: Completed) {
    && CacheStateOf(setup, completed).Ok? && CacheAccepted(CacheStateOf(setup, completed).value)
    && ActiveCondition(setup, completed, 1).Ok? && ActiveCondition(setup, completed, 1).value.Some?
  }

  predicate AuthorizeLater(setup: Setup, completed: Completed, replicate: int, spec: CellSpec, controls: Controls) {
    && CacheGate(setup, completed)
    && (spec.cell != M2 ==> ThreeValidRuns(RunsFor(completed, M2), false))
    && match spec.cell
       case M2 => AuthorizeM2(setup, completed, replicate, controls)
       case M3Profile => AuthorizeM3Profile(setup, completed, replicate, controls)
       case M3A => AuthorizeM3Treatment(setup, completed, M3A, replicate, controls)
       case M3B => AuthorizeM3Treatment(setup, completed, M3B, replicate, controls)
       case M4 => AuthorizeM4(setup, completed, controls)
       case _ =>
         && replicate == |RunsFor(completed, M5)| + 1
         && (replicate == 1 ==> AuthorizeFirstM5(setup, completed, spec))
  }

  /** `authorize_cell_start` raises nothing, given the completed evidence. */
  predicate AuthorizeCellStart(setup: Setup, completed: Completed, replicate: int, spec: CellSpec) {
    && (RunsFor(completed, M5) != [] ==> spec.cell == M5)
    && EffectiveControls(spec).Some?
    && var controls := EffectiveControls(spec).value;
       && (RunsFor(completed, spec.cell) != [] ==> controls == RunsFor(completed, spec.cell)[0].controls)
       && match spec.cell
          case M0 => AuthorizeM0(completed, replicate)
          case M1 => AuthorizeM1(completed, replicate)
          case CpuReference => AuthorizeCpu(completed)
          case _ => AuthorizeLater(setup, completed, replicate, spec, controls)
  }
}
