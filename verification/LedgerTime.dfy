/** Caps, time accounting and absorption over every run of the ledger. */
module LedgerTime {
  import opened Basics
  import opened Contract
  import opened Evidence
  import opened Campaign
  import opened Ledger
  import opened LedgerInvariant

  // ---------------------------------------------------------------- process caps

  ghost predicate DistinctInRange(ledger: seq<Claim>) {
    && (forall i, j | 0 <= i < j < |ledger| :: KeyOf(ledger[i]) != KeyOf(ledger[j]))
    && (forall i | 0 <= i < |ledger| :: ClaimInRange(ledger[i]))
  }

  /** The replicates of one cell that the ledger holds. */
  ghost function ReplicatesOf(ledger: seq<Claim>, cell: Cell): set<int> {
    set i | 0 <= i < |ledger| && ledger[i].cell == cell :: ledger[i].replicate
  }

  function Allowed(cell: Cell): set<int> {
    if CellCap(cell) == 1 then {1} else {1, 2, 3}
  }

  lemma ReplicatesStep(ledger: seq<Claim>, cell: Cell)
    requires DistinctInRange(ledger) && ledger != []
    ensures var last, rest := ledger[|ledger| - 1], ledger[..|ledger| - 1];
            if last.cell == cell then
              last.replicate !in ReplicatesOf(rest, cell)
              && ReplicatesOf(ledger, cell) == ReplicatesOf(rest, cell) + {last.replicate}
            else ReplicatesOf(ledger, cell) == ReplicatesOf(rest, cell)
  {
    var last, rest := ledger[|ledger| - 1], ledger[..|ledger| - 1];
    forall r
      ensures r in ReplicatesOf(ledger, cell) <==>
                r in ReplicatesOf(rest, cell) || (last.cell == cell && r == last.replicate)
    {
      if r in ReplicatesOf(ledger, cell) {
        var i :| 0 <= i < |ledger| && ledger[i].cell == cell && ledger[i].replicate == r;
        assert i < |rest| ==> rest[i] == ledger[i];
      }
      if r in ReplicatesOf(rest, cell) {
        var i :| 0 <= i < |rest| && rest[i].cell == cell && rest[i].replicate == r;
        assert ledger[i] == rest[i];
        assert KeyOf(ledger[i]) != KeyOf(last);
      }
    }
  }

  lemma {:induction false} CellCountIsReplicates(ledger: seq<Claim>, cell: Cell)
    requires DistinctInRange(ledger)
    ensures CellCount(ledger, cell) == |ReplicatesOf(ledger, cell)|
  {
    if ledger == [] {
      assert ReplicatesOf(ledger, cell) == {};
    } else {
      CellCountIsReplicates(ledger[..|ledger| - 1], cell);
      ReplicatesStep(ledger, cell);
    }
  }

  lemma CellCapHolds(ledger: seq<Claim>, cell: Cell)
    requires DistinctInRange(ledger)
    ensures CellCount(ledger, cell) <= CellCap(cell)
  {
    CellCountIsReplicates(ledger, cell);
    forall r | r in ReplicatesOf(ledger, cell)
      ensures r in Allowed(cell)
    {
      var i :| 0 <= i < |ledger| && ledger[i].cell == cell && ledger[i].replicate == r;
      assert ClaimInRange(ledger[i]);
    }
    SubsetSize(ReplicatesOf(ledger, cell), Allowed(cell));
  }

  /** Every claim belongs to one of the nine cells. */
  lemma {:induction false} CellCountsAddUp(ledger: seq<Claim>)
    ensures |ledger| == CellCount(ledger, M0) + CellCount(ledger, M1) + CellCount(ledger, M2)
                        + CellCount(ledger, M3Profile) + CellCount(ledger, M3A) + CellCount(ledger, M3B)
                        + CellCount(ledger, M4) + CellCount(ledger, M5) + CellCount(ledger, CpuReference)
  {
    if ledger != [] {
      CellCountsAddUp(ledger[..|ledger| - 1]);
    }
  }

  ghost predicate WithinCaps(ledger: seq<Claim>) {
    && (forall cell: Cell :: CellCount(ledger, cell) <= CellCap(cell))
    && |ledger| - CellCount(ledger, CpuReference) <= MAX_CUDA_CELLS
    && CellCount(ledger, CpuReference) <= MAX_CPU_REFERENCE_PROCESSES
    && |ledger| <= MAX_TOTAL_PROCESSES
  }

  /** Single-use claim files alone keep every process cap. */
  lemma CapsHold(ledger: seq<Claim>)
    requires DistinctInRange(ledger)
    ensures WithinCaps(ledger)
  {
    forall cell: Cell
      ensures CellCount(ledger, cell) <= CellCap(cell)
    {
      CellCapHolds(ledger, cell);
    }
    CellCountsAddUp(ledger);
  }

  // ---------------------------------------------------------------- time

  ghost predicate MonotoneClock(states: seq<State>) {
    forall i | 0 <= i < |states| - 1 :: states[i].clock <= states[i + 1].clock
  }

  function EndOf(claim: Claim): real {
    claim.claimedAt + DurationOf(claim)
  }

  /** The deadline of a claim, from the cell limit and the wall time left at its claim instant. */
  function WallDeadline(first: real, claimedAt: real): real {
    MinReal(MAX_CELL_SECONDS, MAX_CAMPAIGN_SECONDS - (claimedAt - first))
  }

  /** A valid completion met its deadline. */
  predicate InTime(claim: Claim) {
    claim.outcome.Finished? && claim.outcome.valid ==> claim.outcome.duration < claim.deadline
  }

  /** Every claim starts after the one before it ended, none ends in the future. */
  ghost predicate Timed(ledger: seq<Claim>, clock: real) {
    && (forall i | 0 <= i < |ledger| - 1 :: EndOf(ledger[i]) <= ledger[i + 1].claimedAt)
    && (forall i | 0 <= i < |ledger| :: DurationOf(ledger[i]) >= 0.0)
    && (ledger != [] ==> EndOf(ledger[|ledger| - 1]) <= clock)
    && (forall i | 0 <= i < |ledger| :: InTime(ledger[i]))
    && (forall i | 0 <= i < |ledger| ::
          ledger[i].deadline == WallDeadline(ledger[0].claimedAt, ledger[i].claimedAt) && ledger[i].deadline > 0.0)
  }

  lemma {:induction false} Disjoint(ledger: seq<Claim>, clock: real, i: int, j: int)
    requires Timed(ledger, clock) && 0 <= i < j < |ledger|
    ensures ledger[i].claimedAt <= EndOf(ledger[i]) <= ledger[j].claimedAt <= EndOf(ledger[j]) <= clock
    decreases |ledger| - i
  {
    if i + 1 < j {
      Disjoint(ledger, clock, i + 1, j);
    } else if j + 1 < |ledger| {
      Disjoint(ledger, clock, j, j + 1);
    }
  }

  lemma TimedPrefix(ledger: seq<Claim>, clock: real)
    requires Timed(ledger, clock) && ledger != []
    ensures Timed(ledger[..|ledger| - 1], ledger[|ledger| - 1].claimedAt)
  {
  }

  lemma {:induction false} FirstIsFirst(ledger: seq<Claim>, clock: real, now: real)
    requires Timed(ledger, clock) && ledger != []
    ensures FirstClaimedAt(ledger, now) == ledger[0].claimedAt
  {
    if |ledger| > 1 {
      TimedPrefix(ledger, clock);
      FirstIsFirst(ledger[..|ledger| - 1], ledger[|ledger| - 1].claimedAt, ledger[|ledger| - 1].claimedAt);
      Disjoint(ledger, clock, 0, |ledger| - 1);
    }
  }

  /** Busy time never exceeds the wall time since the first claim. */
  lemma {:induction false} DurationWithinWall(ledger: seq<Claim>, clock: real)
    requires Timed(ledger, clock) && ledger != []
    ensures TotalDuration(ledger) <= EndOf(ledger[|ledger| - 1]) - ledger[0].claimedAt <= clock - ledger[0].claimedAt
  {
    var rest := ledger[..|ledger| - 1];
    if rest != [] {
      TimedPrefix(ledger, clock);
      DurationWithinWall(rest, ledger[|ledger| - 1].claimedAt);
    } else {
      assert TotalDuration(rest) == 0.0;
    }
  }

  /** The cumulative term of the deadline is never the binding one. */
  lemma CumulativeNeverBinds(ledger: seq<Claim>, clock: real, request: Request, now: real)
    requires Timed(ledger, clock) && clock <= now
    ensures NewClaim(ledger, request, now).deadline
            == WallDeadline(if ledger == [] then now else ledger[0].claimedAt, now)
  {
    if ledger != [] {
      DurationWithinWall(ledger, clock);
      FirstIsFirst(ledger, clock, now);
    }
  }

  lemma ClaimKeepsTimed(ledger: seq<Claim>, clock: real, request: Request, now: real)
    requires Timed(ledger, clock) && clock <= now
    requires NewClaim(ledger, request, now).deadline > 0.0
    ensures Timed(ledger + [NewClaim(ledger, request, now)], now)
  {
    CumulativeNeverBinds(ledger, clock, request, now);
    var extended := ledger + [NewClaim(ledger, request, now)];
    assert forall i | 0 <= i < |ledger| :: extended[i] == ledger[i];
    assert ledger != [] ==> extended[0] == ledger[0];
  }

  lemma FinalizedTiming(setup: Setup, ledger: seq<Claim>, report: Report, now: real)
    requires report.index < |ledger|
    ensures var claim, done := ledger[report.index], Finalized(setup, ledger, report, now);
            && done.claimedAt == claim.claimedAt && done.deadline == claim.deadline
            && InTime(done) && DurationOf(done) == now - claim.claimedAt
  {
  }

  lemma CompletionKeepsTimed(setup: Setup, ledger: seq<Claim>, clock: real, report: Report, now: real)
    requires LedgerInv(setup, ledger) && Timed(ledger, clock) && clock <= now
    requires MayComplete(setup, ledger, report, now)
    ensures Timed(ledger[report.index := Finalized(setup, ledger, report, now)], now)
  {
    CompletionKeepsInvariant(setup, ledger, report, now);
    FinalizedTiming(setup, ledger, report, now);
  }

  lemma StepKeepsTimed(setup: Setup, s: State, step: Step, s': State)
    requires LedgerInv(setup, s.ledger) && Timed(s.ledger, s.clock)
    requires Takes(setup, s, step, s') && s.clock <= s'.clock
    ensures Timed(s'.ledger, s'.clock)
  {
    match step {
      case DoClaim(request, _) => ClaimKeepsTimed(s.ledger, s.clock, request, s'.clock);
      case DoComplete(report) => CompletionKeepsTimed(setup, s.ledger, s.clock, report, s'.clock);
      case DoCrash(_) =>
    }
  }

  lemma TimedNext(setup: Setup, states: seq<State>, steps: seq<Step>, n: nat)
    requires IsRun(setup, states, steps) && n < |steps|
    requires Timed(states[n].ledger, states[n].clock) && states[n].clock <= states[n + 1].clock
    ensures Timed(states[n + 1].ledger, states[n + 1].clock)
  {
    RunKeepsInvariant(setup, states, steps, n);
    RunStep(setup, states, steps, n);
    StepKeepsTimed(setup, states[n], steps[n], states[n + 1]);
  }

  lemma {:induction false} RunKeepsTimed(setup: Setup, states: seq<State>, steps: seq<Step>, n: nat)
    requires IsRun(setup, states, steps) && MonotoneClock(states) && n < |states|
    ensures Timed(states[n].ledger, states[n].clock)
  {
    if n > 0 {
      RunKeepsTimed(setup, states, steps, n - 1);
      TimedNext(setup, states, steps, n - 1);
    }
  }

  /**
   With a monotone clock, in every reachable ledger: claims follow one another without overlap, the
   busy time fits into the wall time since the first claim, each deadline is the smaller of the cell
   limit and the wall time left, and a completion with valid evidence took under 900 s and ended
   within four hours of the first claim.
   */
  lemma TimeAccounting(setup: Setup, states: seq<State>, steps: seq<Step>, n: nat)
    requires IsRun(setup, states, steps) && MonotoneClock(states) && n < |states|
    ensures var ledger := states[n].ledger;
            && (forall i, j | 0 <= i < j < |ledger| :: EndOf(ledger[i]) <= ledger[j].claimedAt)
            && (ledger != [] ==> TotalDuration(ledger) <= states[n].clock - ledger[0].claimedAt)
            && (forall i | 0 <= i < |ledger| ::
                  && ledger[i].deadline == WallDeadline(ledger[0].claimedAt, ledger[i].claimedAt)
                  && (ledger[i].outcome.Finished? && ledger[i].outcome.valid ==>
                        && 0.0 <= ledger[i].outcome.duration < MAX_CELL_SECONDS
                        && EndOf(ledger[i]) < ledger[0].claimedAt + MAX_CAMPAIGN_SECONDS))
  {
    RunKeepsTimed(setup, states, steps, n);
    var ledger := states[n].ledger;
    forall i, j | 0 <= i < j < |ledger|
      ensures EndOf(ledger[i]) <= ledger[j].claimedAt
    {
      Disjoint(ledger, states[n].clock, i, j);
    }
    if ledger != [] {
      DurationWithinWall(ledger, states[n].clock);
    }
    forall i | 0 <= i < |ledger| && ledger[i].outcome.Finished? && ledger[i].outcome.valid
      ensures 0.0 <= ledger[i].outcome.duration < MAX_CELL_SECONDS
      ensures EndOf(ledger[i]) < ledger[0].claimedAt + MAX_CAMPAIGN_SECONDS
    {
      assert InTime(ledger[i]) && DurationOf(ledger[i]) >= 0.0;
    }
  }

  // ---------------------------------------------------------------- safety of every run

  lemma OrderlyIsDistinct(setup: Setup, ledger: seq<Claim>)
    requires Orderly(setup, ledger)
    ensures DistinctInRange(ledger)
  {
  }

  /** No cell replicate is ever claimed twice, at most one claim is open, and every cap holds. */
  lemma LedgerSafety(setup: Setup, states: seq<State>, steps: seq<Step>, n: nat)
    requires IsRun(setup, states, steps) && n < |states|
    ensures var ledger := states[n].ledger;
            && (forall i, j | 0 <= i < j < |ledger| :: KeyOf(ledger[i]) != KeyOf(ledger[j]))
            && (forall i | 0 <= i < |ledger| && !SettledClaim(setup, ledger[i]) :: i == |ledger| - 1)
            && WithinCaps(ledger)
  {
    RunKeepsInvariant(setup, states, steps, n);
    OrderlyIsDistinct(setup, states[n].ledger);
    CapsHold(states[n].ledger);
  }

  lemma DurationsInRange(setup: Setup, ledger: seq<Claim>, clock: real)
    requires Orderly(setup, ledger) && Timed(ledger, clock)
    ensures forall i | 0 <= i < |ledger| && SettledClaim(setup, ledger[i]) ::
              0.0 <= DurationOf(ledger[i]) <= MAX_CELL_SECONDS
  {
    forall i | 0 <= i < |ledger| && SettledClaim(setup, ledger[i])
      ensures 0.0 <= DurationOf(ledger[i]) <= MAX_CELL_SECONDS
    {
      assert InTime(ledger[i]) && ledger[i].deadline <= MAX_CELL_SECONDS;
    }
  }

  lemma {:induction false} TotalWithPending(ledger: seq<Claim>, claim: Claim)
    requires claim.outcome.Pending?
    ensures TotalDuration(ledger + [claim]) == TotalDuration(ledger)
  {
    assert (ledger + [claim])[..|ledger|] == ledger;
  }

  lemma DurationsWithClaim(setup: Setup, ledger: seq<Claim>, clock: real, claim: Claim)
    requires Orderly(setup, ledger) && Timed(ledger, clock) && !AnyPending(ledger)
    requires ledger != [] ==> SettledClaim(setup, ledger[|ledger| - 1])
    requires claim.outcome.Pending?
    ensures forall c | c in ledger + [claim] :: 0.0 <= DurationOf(c) <= MAX_CELL_SECONDS
  {
    DurationsInRange(setup, ledger, clock);
    forall c | c in ledger + [claim]
      ensures 0.0 <= DurationOf(c) <= MAX_CELL_SECONDS
    {
      if c in ledger {
        var i :| 0 <= i < |ledger| && ledger[i] == c;
        assert SettledClaim(setup, ledger[i]);
      }
    }
  }

  lemma TotalInTime(ledger: seq<Claim>, clock: real, claim: Claim, now: real)
    requires Timed(ledger, clock) && clock <= now && claim.outcome.Pending?
    requires ledger != [] ==> now - FirstClaimedAt(ledger, now) < MAX_CAMPAIGN_SECONDS
    ensures TotalDuration(ledger + [claim]) <= MAX_CAMPAIGN_SECONDS
    ensures WallDeadline(if ledger == [] then now else ledger[0].claimedAt, now) > 0.0
  {
    TotalWithPending(ledger, claim);
    if ledger != [] {
      DurationWithinWall(ledger, clock);
      FirstIsFirst(ledger, clock, now);
    }
  }

  lemma LastIsSettled(setup: Setup, ledger: seq<Claim>, binding: Binding, disk: Disk)
    requires !AnyPending(ledger) && Reload(setup, ledger, binding, disk) && ledger != []
    ensures SettledClaim(setup, ledger[|ledger| - 1])
  {
    var last := ledger[|ledger| - 1];
    assert last in ledger && Reloads(setup, last, binding, disk);
  }

  /** The checks of a claim other than `enforce_cell_budget` and the one for a positive deadline. */
  predicate OtherwiseClaimable(setup: Setup, ledger: seq<Claim>, disk: Disk, request: Request, now: real) {
    && RequestInRange(request)
    && !AnyPending(ledger)
    && (ledger != [] ==> now - FirstClaimedAt(ledger, now) < MAX_CAMPAIGN_SECONDS)
    && Reload(setup, ledger, request.binding, disk)
    && !Used(ledger, (request.cell, request.replicate))
  }

  lemma BudgetFollows(setup: Setup, ledger: seq<Claim>, clock: real, disk: Disk, request: Request, now: real)
    requires Orderly(setup, ledger) && Timed(ledger, clock) && clock <= now
    requires OtherwiseClaimable(setup, ledger, disk, request, now)
    ensures WithinBudget(ledger + [NewClaim(ledger, request, now)])
    ensures NewClaim(ledger, request, now).deadline > 0.0
  {
    var claim := NewClaim(ledger, request, now);
    if ledger != [] {
      LastIsSettled(setup, ledger, request.binding, disk);
    }
    DurationsWithClaim(setup, ledger, clock, claim);
    TotalInTime(ledger, clock, claim, now);
    CumulativeNeverBinds(ledger, clock, request, now);
    ClaimKeepsOrderly(setup, ledger, request.binding, disk, claim);
    OrderlyIsDistinct(setup, ledger + [claim]);
    CapsHold(ledger + [claim]);
  }

  /**
   `enforce_cell_budget` and the test for a positive deadline never refuse what the other checks of a
   claim let through: they follow from single-use files and the wall-time ceiling.
   */
  lemma BudgetNeverBinds(setup: Setup, states: seq<State>, steps: seq<Step>, n: nat, disk: Disk, request: Request,
                         now: real)
    requires IsRun(setup, states, steps) && MonotoneClock(states) && n < |states| && states[n].clock <= now
    requires OtherwiseClaimable(setup, states[n].ledger, disk, request, now)
    ensures WithinBudget(states[n].ledger + [NewClaim(states[n].ledger, request, now)])
    ensures NewClaim(states[n].ledger, request, now).deadline > 0.0
  {
    RunKeepsInvariant(setup, states, steps, n);
    RunKeepsTimed(setup, states, steps, n);
    BudgetFollows(setup, states[n].ledger, states[n].clock, disk, request, now);
  }

  // ---------------------------------------------------------------- evidence

  /** Every evidence file is as it was when its claim was completed. */
  predicate Intact(ledger: seq<Claim>, disk: Disk) {
    forall c | c in ledger && c.outcome.Finished? :: KeyOf(c) in disk && disk[KeyOf(c)] == c.outcome.evidence
  }

  lemma ClaimNeedsIntact(setup: Setup, ledger: seq<Claim>, disk: Disk, request: Request, now: real)
    requires MayClaim(setup, ledger, disk, request, now)
    ensures Intact(ledger, disk) && forall c | c in ledger :: c.binding == request.binding && c.outcome.Finished?
  {
    forall c | c in ledger
      ensures c.outcome.Finished? && Reloads(setup, c, request.binding, disk)
    {
    }
  }

  /** A claim succeeds only while all earlier evidence is unaltered and all claims share its binding. */
  lemma ClaimsSeeIntactEvidence(setup: Setup, states: seq<State>, steps: seq<Step>, n: nat)
    requires IsRun(setup, states, steps) && n < |steps| && steps[n].DoClaim?
    ensures Intact(states[n].ledger, steps[n].disk)
    ensures forall c | c in states[n + 1].ledger :: c.binding == steps[n].request.binding
  {
    RunStep(setup, states, steps, n);
    ClaimNeedsIntact(setup, states[n].ledger, steps[n].disk, steps[n].request, states[n + 1].clock);
  }

  // ---------------------------------------------------------------- absorption

  /**
   The last claim (the only one that can be unsettled) will never be settled: its evidence is void,
   or its process is gone.
   */
  predicate Dead(s: State) {
    && s.ledger != []
    && var last := s.ledger[|s.ledger| - 1];
       if last.outcome.Pending? then KeyOf(last) !in s.alive else !last.outcome.valid
  }

  lemma DeadBlocksClaim(setup: Setup, s: State, disk: Disk, request: Request, now: real)
    requires Dead(s)
    ensures !MayClaim(setup, s.ledger, disk, request, now)
  {
    assert s.ledger[|s.ledger| - 1] in s.ledger;
  }

  lemma DeadBlocksCompletion(setup: Setup, s: State, report: Report, now: real)
    requires LedgerInv(setup, s.ledger) && Dead(s) && MayComplete(setup, s.ledger, report, now)
    ensures KeyOf(s.ledger[report.index]) !in s.alive
  {
    CompletionKeepsInvariant(setup, s.ledger, report, now);
  }

  lemma DeadStep(setup: Setup, s: State, step: Step, s': State)
    requires LedgerInv(setup, s.ledger) && Dead(s) && Takes(setup, s, step, s')
    ensures s'.ledger == s.ledger && Dead(s')
  {
    match step {
      case DoClaim(request, disk) => DeadBlocksClaim(setup, s, disk, request, s'.clock);
      case DoComplete(report) => DeadBlocksCompletion(setup, s, report, s'.clock);
      case DoCrash(_) =>
    }
  }

  lemma DeadNext(setup: Setup, states: seq<State>, steps: seq<Step>, n: nat)
    requires IsRun(setup, states, steps) && n < |steps| && Dead(states[n])
    ensures states[n + 1].ledger == states[n].ledger && Dead(states[n + 1])
  {
    RunKeepsInvariant(setup, states, steps, n);
    RunStep(setup, states, steps, n);
    DeadStep(setup, states[n], steps[n], states[n + 1]);
  }

  /** After an overrun, invalid evidence or a crash no claim and no completion ever succeeds again. */
  lemma {:induction false} DeadEnds(setup: Setup, states: seq<State>, steps: seq<Step>, n: nat, m: nat)
    requires IsRun(setup, states, steps) && n <= m < |states| && Dead(states[n])
    ensures states[m].ledger == states[n].ledger && Dead(states[m])
    decreases m - n
  {
    if n < m {
      DeadNext(setup, states, steps, n);
      DeadEnds(setup, states, steps, n + 1, m);
    }
  }

  /** `later` is `earlier` with at most its outcome filled in, and a finished claim is frozen. */
  predicate Continues(earlier: Claim, later: Claim) {
    later.(outcome := earlier.outcome) == earlier && (earlier.outcome.Finished? ==> later == earlier)
  }

  ghost predicate Grows(ledger: seq<Claim>, ledger': seq<Claim>) {
    |ledger| <= |ledger'| && forall i | 0 <= i < |ledger| :: Continues(ledger[i], ledger'[i])
  }

  lemma StepGrows(setup: Setup, s: State, step: Step, s': State)
    requires Takes(setup, s, step, s')
    ensures Grows(s.ledger, s'.ledger)
  {
  }

  lemma GrowsNext(setup: Setup, states: seq<State>, steps: seq<Step>, n: nat)
    requires IsRun(setup, states, steps) && n < |steps|
    ensures Grows(states[n].ledger, states[n + 1].ledger)
  {
    RunStep(setup, states, steps, n);
    StepGrows(setup, states[n], steps[n], states[n + 1]);
  }

  lemma GrowsTransitive(a: seq<Claim>, b: seq<Claim>, c: seq<Claim>)
    requires Grows(a, b) && Grows(b, c)
    ensures Grows(a, c)
  {
    forall i | 0 <= i < |a|
      ensures Continues(a[i], c[i])
    {
      assert Continues(a[i], b[i]) && Continues(b[i], c[i]);
    }
  }

  /** Every ledger of the sequence continues the one before it. */
  ghost predicate EachGrows(states: seq<State>) {
    forall i | 0 <= i < |states| - 1 :: Grows(states[i].ledger, states[i + 1].ledger)
  }

  lemma {:induction false} GrowsAcross(states: seq<State>, n: nat, m: nat)
    requires EachGrows(states) && n <= m < |states|
    ensures Grows(states[n].ledger, states[m].ledger)
    decreases m
  {
    if n < m {
      GrowsAcross(states, n, m - 1);
      assert Grows(states[m - 1].ledger, states[m - 1 + 1].ledger);
      GrowsTransitive(states[n].ledger, states[m - 1].ledger, states[m].ledger);
    }
  }

  /** The ledger only grows: nothing is removed, reordered or rewritten after its completion. */
  lemma LedgerAppendOnly(setup: Setup, states: seq<State>, steps: seq<Step>, n: nat, m: nat)
    requires IsRun(setup, states, steps) && n <= m < |states|
    ensures Grows(states[n].ledger, states[m].ledger)
  {
    forall i | 0 <= i < |states| - 1
      ensures Grows(states[i].ledger, states[i + 1].ledger)
    {
      GrowsNext(setup, states, steps, i);
    }
    GrowsAcross(states, n, m);
  }
}
