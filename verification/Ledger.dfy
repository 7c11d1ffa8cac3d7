/**
 The claim ledger of one campaign. The directory of claim files is a sequence in claim order; no
 check depends on that order, and each locked section (with its exclusive create) is one step.
 */
module Ledger {
  import opened Contract
  import opened Evidence
  import opened Campaign

  datatype Outcome =
    | Pending
    | Finished(duration: real, result: Status, valid: bool, evidence: RawEvidence)

  datatype Claim = Claim(
    cell: Cell,
    replicate: int,
    spec: CellSpec,
    binding: Binding,
    claimedAt: real,
    deadline: real,
    outcome: Outcome)

  datatype Request = Request(cell: Cell, replicate: int, spec: CellSpec, binding: Binding)

  /** The raw evidence files as they are on disk now. */
  type Disk = map<Key, RawEvidence>

  function KeyOf(claim: Claim): Key {
    (claim.cell, claim.replicate)
  }

  predicate Used(ledger: seq<Claim>, key: Key) {
    exists c | c in ledger :: KeyOf(c) == key
  }

  predicate AnyPending(ledger: seq<Claim>) {
    exists c | c in ledger :: c.outcome.Pending?
  }

  // ---------------------------------------------------------------- completed evidence

  function RunOf(setup: Setup, claim: Claim): Run
    requires claim.outcome.Finished?
  {
    Reduce(claim.outcome.evidence, setup.binding, claim.spec)
  }

  /** A completed claim survives reloading: same binding, unaltered evidence, still valid and its own. */
  predicate Reloads(setup: Setup, claim: Claim, binding: Binding, disk: Disk)
    requires claim.outcome.Finished?
  {
    && claim.binding == binding
    && KeyOf(claim) in disk && disk[KeyOf(claim)] == claim.outcome.evidence
    && claim.outcome.valid
    && SoundRun(setup, claim)
  }

  predicate SoundRun(setup: Setup, claim: Claim)
    requires claim.outcome.Finished?
  {
    var run := RunOf(setup, claim);
    && KeyOf(claim) in setup.authority && claim.spec in setup.authority[KeyOf(claim)]
    && run.valid && run.cell == claim.cell && run.replicate == claim.replicate
  }

  function CompletedRuns(setup: Setup, ledger: seq<Claim>): Completed {
    if ledger == [] then map[]
    else
      var last := ledger[|ledger| - 1];
      var earlier := CompletedRuns(setup, ledger[..|ledger| - 1]);
      if last.outcome.Finished? then earlier[KeyOf(last) := RunOf(setup, last)] else earlier
  }

  /** `_load_completed_claims` raises nothing, and yields `CompletedRuns(setup, ledger)`. */
  predicate Reload(setup: Setup, ledger: seq<Claim>, binding: Binding, disk: Disk) {
    forall c | c in ledger && c.outcome.Finished? :: Reloads(setup, c, binding, disk)
  }

  // ---------------------------------------------------------------- budget and deadline

  function CellCount(ledger: seq<Claim>, cell: Cell): nat {
    if ledger == [] then 0
    else CellCount(ledger[..|ledger| - 1], cell) + (if ledger[|ledger| - 1].cell == cell then 1 else 0)
  }

  function DurationOf(claim: Claim): real {
    if claim.outcome.Finished? then claim.outcome.duration else 0.0
  }

  function TotalDuration(ledger: seq<Claim>): real {
    if ledger == [] then 0.0
    else TotalDuration(ledger[..|ledger| - 1]) + DurationOf(ledger[|ledger| - 1])
  }

  /** `enforce_cell_budget` raises nothing. */
  predicate WithinBudget(ledger: seq<Claim>) {
    && (forall c | c in ledger :: 0.0 <= DurationOf(c) <= MAX_CELL_SECONDS)
    && (forall c | c in ledger :: c.cell != CpuReference ==> CellCount(ledger, c.cell) <= CellCap(c.cell))
    && |ledger| - CellCount(ledger, CpuReference) <= MAX_CUDA_CELLS
    && CellCount(ledger, CpuReference) <= MAX_CPU_REFERENCE_PROCESSES
    && |ledger| <= MAX_TOTAL_PROCESSES
    && TotalDuration(ledger) <= MAX_CAMPAIGN_SECONDS
  }

  /** The earliest claim instant, or `now` for an empty ledger. */
  function FirstClaimedAt(ledger: seq<Claim>, now: real): real {
    if ledger == [] then now
    else
      var earlier := FirstClaimedAt(ledger[..|ledger| - 1], ledger[|ledger| - 1].claimedAt);
      if ledger[|ledger| - 1].claimedAt < earlier then ledger[|ledger| - 1].claimedAt else earlier
  }

  function MinReal(a: real, b: real): real {
    if a <= b then a else b
  }

  /** `effective_cell_deadline_seconds`. */
  function EffectiveDeadline(remainingWall: real, remainingCumulative: real): real {
    MinReal(MAX_CELL_SECONDS, MinReal(remainingWall, remainingCumulative))
  }

  // ---------------------------------------------------------------- claim

  predicate RequestInRange(request: Request) {
    && 1 <= request.replicate <= 3
    && (request.cell == M3Profile || request.cell == CpuReference ==> request.replicate == 1)
    && request.spec.cell == request.cell
  }

  /**
   `verify_execution_authority` raises nothing, and the workload is the authority's: what a process
   checks before it claims.
   */
  predicate Permitted(setup: Setup, request: Request) {
    && request.binding == setup.binding
    && (request.cell, request.replicate) in setup.authority
    && request.spec in setup.authority[(request.cell, request.replicate)]
  }

  function NewClaim(ledger: seq<Claim>, request: Request, now: real): Claim {
    Claim(request.cell, request.replicate, request.spec, request.binding, now,
          EffectiveDeadline(MAX_CAMPAIGN_SECONDS - (now - FirstClaimedAt(ledger, now)),
                            MAX_CAMPAIGN_SECONDS - TotalDuration(ledger)),
          Pending)
  }

  /** `claim_single_cell_process` succeeds, and its durable record is `NewClaim(ledger, request, now)`. */
  predicate MayClaim(setup: Setup, ledger: seq<Claim>, disk: Disk, request: Request, now: real) {
    && RequestInRange(request)
    && !AnyPending(ledger)
    && FirstClaimedAt(ledger, now) <= now
    && (ledger != [] ==> now - FirstClaimedAt(ledger, now) < MAX_CAMPAIGN_SECONDS)
    && Reload(setup, ledger, request.binding, disk)
    && AuthorizeCellStart(setup, CompletedRuns(setup, ledger), request.replicate, request.spec)
    && WithinBudget(ledger + [NewClaim(ledger, request, now)])
    && NewClaim(ledger, request, now).deadline > 0.0
    && !Used(ledger, (request.cell, request.replicate))
  }

  // ---------------------------------------------------------------- completion

  /** What the finishing process reports about claim `index`. */
  datatype Report = Report(index: nat, reportedDuration: real, resultFailed: bool, resultStatus: Status,
                           evidence: RawEvidence)

  predicate EvidenceMatchesClaim(claim: Claim, raw: RawEvidence) {
    && raw.spec == claim.spec && raw.binding == claim.binding
    && raw.cell == claim.cell && raw.replicate == claim.replicate
  }

  /** The process may call a non-OOM failure FAILED; every other status must match the evidence. */
  predicate ResultMatches(report: Report, status: Status) {
    if report.resultFailed then status == NonOomFailure else report.resultStatus == status
  }

  predicate Overrun(ledger: seq<Claim>, claim: Claim, report: Report, now: real) {
    var elapsed := now - claim.claimedAt;
    || now - FirstClaimedAt(ledger, now) >= MAX_CAMPAIGN_SECONDS
    || TotalDuration(ledger) + elapsed >= MAX_CAMPAIGN_SECONDS
    || elapsed >= claim.deadline
    || report.reportedDuration >= claim.deadline
  }

  /** `complete_cell_process_claim` finalizes its claim; otherwise it raises and leaves it CLAIMED. */
  predicate MayComplete(setup: Setup, ledger: seq<Claim>, report: Report, now: real) {
    && report.index < |ledger|
    && var claim := ledger[report.index];
       && claim.outcome.Pending?
       && EvidenceMatchesClaim(claim, report.evidence)
       && KeyOf(claim) in setup.authority && claim.spec in setup.authority[KeyOf(claim)]
       && ResultMatches(report, ResultStatus(report.evidence))
       && FirstClaimedAt(ledger, now) <= now
  }

  /** The finalized record: an overrun keeps the evidence but voids it. */
  function Finalized(setup: Setup, ledger: seq<Claim>, report: Report, now: real): Claim
    requires report.index < |ledger|
  {
    var claim := ledger[report.index];
    if Overrun(ledger, claim, report, now) then
      claim.(outcome := Finished(now - claim.claimedAt, CampaignLimitExceeded, false, report.evidence))
    else
      claim.(outcome := Finished(now - claim.claimedAt, ResultStatus(report.evidence),
                                 EvidenceValid(report.evidence, setup.binding, claim.spec), report.evidence))
  }
}
